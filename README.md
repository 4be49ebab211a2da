# Zulip user validators, user resolvers and integration registry, in Dafny

This project models two server-side parts of Zulip.

- **`zerver/lib/users.py`** (module `Users`). It holds the validators for
  user-supplied fields: full name, short name, bot type and interface type.
  It also holds the two resolvers that turn requests into `UserProfile`
  rows. `user_ids_to_users` resolves a list of ids one by one inside a
  realm. `bulk_get_users` resolves a list of emails case-insensitively
  through the cache engine.
- **`zerver/lib/integrations.py`** (module `Integrations`). It holds the
  `Integration` record and the constructors of its subclasses: bot,
  webhook, GitHub, hubot and embedded-bot integrations. Each constructor
  checks the category keys and fills in defaults derived from the
  integration's name. The module ends with the loops that merge the hubot,
  webhook and bot tables into the `INTEGRATIONS` dictionary.

Two support modules complete the project.

- **`Text`** models the Python string operations the code relies on:
  `strip`, `lower`, `upper`, `title`, `join` and list repetition.
- **`Wrappers`** holds `Option`, `Result` and `Outcome`. A raised
  exception becomes a `Failure` or `Fail` value.

How the source's state is represented:

- The user table is an in-memory sequence of rows. A Django query set is a
  sequence of rows.
- The policy constants read from `zerver/models.py` are fields of a
  `UserPolicy` parameter: `MAX_NAME_LENGTH`, `MIN_NAME_LENGTH`,
  `NAME_INVALID_CHARS`, `ALLOWED_BOT_TYPES` and `ALLOWED_INTERFACE_TYPES`.
- The cache engine `generic_bulk_cached_fetch` is a function-typed
  parameter. The model fixes only what `users.py` hands to it: the
  lower-cased keys, the fetcher over the candidate rows, and the
  `id_fetcher`.
- Integrations are objects of one class, `Integrations.Integration`. Its
  `kind` records which subclass constructor built it. The constructors are
  methods that return the new object, or return the `KeyError` raised for
  an unknown category.
- The file system probed by `get_logo_url` is the parameter `files`: the
  set of static paths that exist.
- `INTEGRATIONS` is the `integrations` field of `Integrations.Registry`.
  The merge loops reassign that field.

## Model

| member | source | states |
|---|---|---|
| Text.StripIsTrimmedSlice | zerver/lib/users.py:13 | `strip` returns a slice of its input with only whitespace before and after it. The slice begins and ends with a non-whitespace character unless it is empty. |
| Text.StripOfPadded | zerver/lib/users.py:13 | Reference definition: whatever whitespace surrounds a core that starts and ends with non-whitespace, `strip` returns exactly that core. |
| Text.StripIdempotent | zerver/lib/users.py:24 | Stripping twice gives the same result as stripping once. |
| Text.StripIgnoresPadding | zerver/lib/users.py:13 | Adding whitespace on either side of a string never changes what `strip` returns. |
| Text.LowerIdempotent | zerver/lib/users.py:65 | Lower-casing twice gives the same result as lower-casing once. |
| Text.UpperOfLower | zerver/lib/users.py:57 | Upper-casing the lower-cased string gives the same result as upper-casing the original. |
| Text.LowerEqualIffUpperEqual | zerver/lib/users.py:57-66 | Two strings are equal after `lower` exactly when they are equal after `upper`, under the ASCII case mapping. For ASCII emails, matching with `UPPER` in SQL is therefore matching on lower-cased keys. |
| Text.TitleAt | zerver/lib/integrations.py:78-80 | Each character of `title` depends only on that character and on whether the character before it is a letter. A letter after a letter is lower-cased; any other letter is upper-cased. |
| Text.CountJoinRepeat | zerver/lib/users.py:56 | Joining `n` copies of a part with a separator that lacks `c` yields `n` times the part's count of `c`. |
| Text.CountFramedRepeat | zerver/lib/users.py:56-57 | `n` copies of a part holding one `c`, joined and framed by text without `c`, hold exactly `n` of `c`. |
| Users.CheckFullName | zerver/lib/users.py:11-20 | Success exactly when the stripped name has a length between the minimum and the maximum and contains no forbidden character. The value returned is the stripped name. Each failure is tied to its check in order: too long whatever the content; otherwise too short; otherwise forbidden characters. |
| Users.FullNameIsFixedPoint | zerver/lib/users.py:11-20 | An accepted full name passes the validator again unchanged. |
| Users.FullNameIgnoresPadding | zerver/lib/users.py:13 | Whitespace around the input never changes the verdict or the value. |
| Users.FullNameIsTrimmed | zerver/lib/users.py:13-20 | An accepted name lies inside the input and has no whitespace at either end. |
| Users.CheckShortName | zerver/lib/users.py:22-27 | Fails, with the bad-name error, exactly when the stripped input is empty. Otherwise it returns the stripped input. |
| Users.ShortNameIsFixedPoint | zerver/lib/users.py:22-27 | Applying the validator to its own result returns the same value. |
| Users.ShortNameIgnoresPadding | zerver/lib/users.py:24 | Whitespace around the input never changes the verdict or the value. |
| Users.ShortNameExamples | zerver/lib/users.py:22-27 | Blanks only are rejected. `"  bob  "` is accepted as `"bob"`. |
| Users.CheckValidBotType | zerver/lib/users.py:29-32 | Passes exactly when the bot type is in the allow list. Otherwise it fails with the invalid-bot-type error. |
| Users.CheckValidInterfaceType | zerver/lib/users.py:34-37 | Passes exactly when the interface type is in the allow list. Otherwise it fails with the invalid-interface-type error. |
| Users.LookupById | zerver/lib/users.py:78-79 | Finds a row with the given id exactly when one exists. Otherwise it reports that none exists. |
| Users.UserIdsToUsers | zerver/lib/users.py:69-84 | Succeeds exactly when every id names a user of the realm. It then returns one row per id, in input order: row `i` has id `user_ids[i]` and the given realm. On failure the error names the first id that is missing or belongs to another realm, with the same error either way. The ids examined end at that id, so no later id is looked up. |
| Users.ActiveInRealm | zerver/lib/users.py:41-43 | The default base query holds exactly the active users of the realm. |
| Users.BuildEmailQuery | zerver/lib/users.py:53-60 | No query is built for an empty list. Otherwise the parameters are the emails, and the WHERE clause has exactly one `UPPER(%s)` placeholder per email. |
| Users.EmailWhereClausePlaceholders | zerver/lib/users.py:56-57 | The clause built for `n` emails contains exactly `n` placeholder markers. |
| Users.RunEmailQuery | zerver/lib/users.py:56-60 | Evaluating the built clause on the base query keeps exactly the rows whose upper-cased email equals the upper-cased form of one of the parameters, and never adds rows. |
| Users.FetchUsersByEmail | zerver/lib/users.py:45-60 | Returns `[]` for an empty list. Otherwise it selects exactly the base-query rows whose upper-cased email equals the upper-cased form of one of the emails. |
| Users.BulkFetchRequest | zerver/lib/users.py:39-66 | Without a base query the realm is required, and the candidates are exactly the realm's active users. A given base query is used as is. The keys handed to the engine are the lower-cased emails, in order, one per email. |
| Users.CachedFetch.Fetch | zerver/lib/users.py:45-64 | The fetcher handed to the engine selects exactly the candidates whose email matches one of the requested emails ignoring case. |
| Users.CachedFetch.IdOf | zerver/lib/users.py:66 | The `id_fetcher`'s key for a row is already lower-case and matches the row's email under `UPPER`. |
| Users.BulkGetUsers | zerver/lib/users.py:39-67 | One engine call on the request built by `BulkFetchRequest`. It has no contract of its own: its properties are those of `Users.BulkFetchRequest`, `Users.FetchedRowsAreKeyed` and `Users.BulkGetUsersIgnoresCase`. |
| Users.FetchIgnoresKeyCase | zerver/lib/users.py:56-66 | Fetching by the lower-cased keys returns the same rows as fetching by the caller's emails. |
| Users.FetchedRowsAreKeyed | zerver/lib/users.py:62-66 | A candidate is fetched for the keys exactly when its lower-cased email, as produced by the `id_fetcher`, is one of the keys. |
| Users.BulkGetUsersIgnoresCase | zerver/lib/users.py:62-67 | Whatever the engine does, two requests whose emails differ only in case get the same result. |
| Integrations.FirstUnknown | zerver/lib/integrations.py:66-71 | Gives the position of the first category that is not a key of `CATEGORIES`. Every category before it is known. |
| Integrations.Labels | zerver/lib/integrations.py:72 | The labels are `CATEGORIES[c]` for each category `c`, with the same length and order. |
| Integrations.CheckCategories | zerver/lib/integrations.py:35-72 | Succeeds exactly when every category is a key of `CATEGORIES`, and then yields their labels in order. Otherwise the `KeyError` names the integration and the first unknown category. |
| Integrations.GetLogoUrl | zerver/lib/integrations.py:94-109 | Returns the svg logo path if that file exists. Otherwise it returns the png path if that file exists, and nothing if neither does. Bot integrations look under `static/generated/bots/`. |
| Integrations.Integration.Init | zerver/lib/integrations.py:56-84 | Sets every field from its argument. When no value is given, the logo is the one found on disk, the display name is `name.title()` and the stream name is `name`. The doc context is empty. |
| Integrations.Integration.AddDocContext | zerver/lib/integrations.py:90-92 | Sets the doc context and changes no other field. |
| Integrations.Integration.UrlObject | zerver/lib/integrations.py:190-193 | A webhook integration's URL pattern is built from its URL and its view. A GitHub integration has none. |
| Integrations.NewIntegration | zerver/lib/integrations.py:56-84 | Fails exactly on an unknown category, naming the first. Otherwise it returns a new integration whose categories are the labels and whose display name, stream name and logo take their defaults when none is given. |
| Integrations.NewBotIntegration | zerver/lib/integrations.py:111-144 | The client name is the name and the stream name is the name. The logo is the one given, else the bot's own logo on disk, else Zulip's logo. The display name is the given one, or `name.title()`, followed by `" Bot"`. The doc defaults to `<name>/doc.md`. Unknown categories fail as for `Integration`. |
| Integrations.NewWebhookIntegration | zerver/lib/integrations.py:151-188 | Defaults when no value is given: the client name is `"Zulip" + name.title() + "Webhook"`, the view is `zerver.webhooks.<name>.view.api_<name>_webhook`, the URL is `api/v1/external/<name>` and the doc is `<name>/doc.md`. Supplied values are kept. |
| Integrations.NewGithubIntegration | zerver/lib/integrations.py:217-244 | The URL is always `api/v1/external/github`, whatever URL is passed. There is no URL object. The other fields are as for a webhook integration. |
| Integrations.NewHubotIntegration | zerver/lib/integrations.py:195-215 | The client name and the stream name are the name. When not given, the logo's alt text is `name.title() + " logo"` and the docs URL is `https://github.com/hubot-scripts/hubot-<name>`. The doc is always `zerver/integrations/hubot_common.md`. |
| Integrations.NewEmbeddedBotIntegration | zerver/lib/integrations.py:246-258 | A client name must not be supplied. The client name is `"Zulip" + name.title() + "EmbeddedBot"`. The other arguments are as for `Integration`. |
| Integrations.LastNamed | zerver/lib/integrations.py:481-488 | Gives the position of the last integration in a table with a given name. There is none exactly when no integration has that name. |
| Integrations.Registered | zerver/lib/integrations.py:481-482 | Reference definition of one merge loop. The keys afterwards are exactly the old keys plus the names of the integrations merged. |
| Integrations.RegisteredAt | zerver/lib/integrations.py:481-482 | After one merge loop, a name carried by some integration maps to the last integration with that name. Every other key keeps its entry, and no key is added. |
| Integrations.RegisteredAppend | zerver/lib/integrations.py:481-482 | Registering one more integration overwrites exactly its own name's entry. |
| Integrations.MergePriority | zerver/lib/integrations.py:481-488 | After the three loops: a bot wins over a webhook integration, which wins over a hubot integration of the same name. Keys that none of them carries are unchanged. |
| Integrations.MergeRegistersAll | zerver/lib/integrations.py:481-488 | Every hubot, webhook and bot integration is present under its own name. |
| Integrations.SampleMerge | zerver/lib/integrations.py:476-488 | Merging entries from the module's tables (`git`, `assembla`, `airbrake`, `github`, `github_webhook`, `xkcd`) registers each under its own name. |
| Integrations.Registry.Register | zerver/lib/integrations.py:481-482 | One merge loop: the dictionary becomes the old one with each integration written under its name, in table order. |
| Integrations.Registry.MergeTables | zerver/lib/integrations.py:481-488 | The three loops, in the module's order: hubots, then webhooks, then bots. |

## Left out

- The body of `generic_bulk_cached_fetch` and the cache-key function `user_profile_by_email_cache_key` are not part of this model. The engine is an uninterpreted parameter. Nothing is claimed about cache hits, negative caching or the number of database queries.
- The Django ORM is not modelled: `select_related`, `.extra`, SQL execution and the `DoesNotExist` exception. `get_user_profile_by_id` is a lookup in the row sequence, and the SQL clause is evaluated by `Users.RunEmailQuery` as a filter over the rows.
- `zerver/models.py` is not part of this model. Its policy constants are the `UserPolicy` parameter.
- Error message texts and their translation through `_()` are not modelled. Errors are kinds, and the offending id is carried for the id path. Category labels are stored untranslated.
- `Text.Lower`, `Text.Upper` and `Text.Title` follow the ASCII part of Python's Unicode case rules. Other characters map to themselves, and there is no special casing such as `ß`. `Text.Strip` uses Python's full whitespace set.
- `Text.Title`: a non-ASCII letter does not count as a letter, neither for its own case nor for the next character. So `Title("éa")` is `"éA"`, where Python gives `"Éa"`.
- `Text.LowerEqualIffUpperEqual` and `Users.FetchedRowsAreKeyed` hold only under the ASCII case mapping, and the database's `UPPER` is evaluated with `Text.Upper`. For emails with characters such as U+212A KELVIN SIGN, which Python lower-cases to `k` but upper-cases to itself, the SQL filter and the `id_fetcher` can disagree. The model does not capture that.
- The file system, `settings.STATIC_ROOT` and `pathlib` are not modelled. `get_logo_url` consults the set `files` of static paths that exist.
- `import_string` and Django's `url()` are not modelled. A view is the dotted path string, and a URL object is the pair of URL and view. `UrlObject` requires the object to be a webhook or GitHub integration; on any other integration Python raises `AttributeError`.
- `is_enabled` and `EmailIntegration` are not modelled, because they depend on `settings.EMAIL_GATEWAY_PATTERN`. The literal contents of the large tables are not modelled either: `EMBEDDED_BOTS`, `WEBHOOK_INTEGRATIONS`, `INTEGRATIONS`, `BOT_INTEGRATIONS` and the hubot tables. `Integrations.SampleMerge` uses six of their entries.
- `Integrations.NewWebhookIntegration`: `legacy` is a `bool`. The source's default is `None`, which Python treats as false.
- `Integrations.NewHubotIntegration`: the source assigns the alt text and the docs URL before the base constructor runs. The model assigns them after, which gives the same final object.
- `HUBOT_INTEGRATIONS` is a Python set, so its iteration order is unspecified. The merge takes it as a sequence in any order.
- `Integrations.NewEmbeddedBotIntegration`: the source's `assert` that no client name is passed becomes a precondition. `None` means "not passed". An explicit `client_name=None` makes Python raise a `TypeError` for the duplicate keyword, which is not modelled.
- `Users.BulkFetchRequest`: the source's `assert` that a realm is given becomes a precondition. This is the only case in which the realm is needed.
