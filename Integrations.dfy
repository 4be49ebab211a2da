/**
 * The integration registry (zerver/lib/integrations.py): the `Integration`
 * record and its subclasses' constructors, and the loops that merge the
 * hubot, webhook and bot tables into `INTEGRATIONS`.
 *
 * Python's class hierarchy becomes one class whose `kind` records which
 * constructor built the object; each constructor is a method that returns
 * the new object or the `KeyError` it raises. The file system probed by
 * `get_logo_url` is the parameter `files`: the static paths that exist.
 */
module Integrations {
  import opened Wrappers
  import opened Text

  /** `CATEGORIES`: category key to its label (untranslated). */
  const CATEGORIES: map<string, string> := map[
    "meta-integration" := "Integration frameworks",
    "continuous-integration" := "Continuous integration",
    "customer-support" := "Customer support",
    "deployment" := "Deployment",
    "communication" := "Communication",
    "financial" := "Financial",
    "hr" := "HR",
    "marketing" := "Marketing",
    "misc" := "Miscellaneous",
    "monitoring" := "Monitoring tools",
    "project-management" := "Project management",
    "productivity" := "Productivity",
    "version-control" := "Version control",
    "bots" := "Interactive bots"
  ]

  const ZULIP_LOGO_STATIC_PATH_PNG := "static/images/logo/zulip-icon-128x128.png"
  const HUBOT_COMMON_DOC := "zerver/integrations/hubot_common.md"

  /** The class whose constructor built an integration. */
  datatype Kind = Plain | Bot | Webhook | Github | Hubot | EmbeddedBot

  /** The `KeyError` raised for a category that is not a key of `CATEGORIES`. */
  datatype CategoryError = UnknownCategory(integration: string, category: string)

  /** The arguments of Django's `url(regex, view)`. */
  datatype UrlPattern = UrlPattern(regex: string, view: string)

  // ---------------------------------------------------------------------
  // Categories

  predicate KnownCategories(categories: seq<string>) {
    forall i :: 0 <= i < |categories| ==> categories[i] in CATEGORIES
  }

  /** The position of the first category that is not a key of `CATEGORIES`. */
  function FirstUnknown(categories: seq<string>): (k: nat)
    requires !KnownCategories(categories)
    ensures k < |categories| && categories[k] !in CATEGORIES
    ensures forall j :: 0 <= j < k ==> categories[j] in CATEGORIES
  {
    if categories[0] !in CATEGORIES then 0
    else
      assert !KnownCategories(categories[1..]) by {
        var i :| 0 <= i < |categories| && categories[i] !in CATEGORIES;
        assert categories[1..][i - 1] == categories[i];
      }
      1 + FirstUnknown(categories[1..])
  }

  /** `list(map(lambda c: CATEGORIES[c], categories))`. */
  function Labels(categories: seq<string>): (r: seq<string>)
    requires KnownCategories(categories)
    ensures |r| == |categories|
    ensures forall i :: 0 <= i < |categories| ==> r[i] == CATEGORIES[categories[i]]
  {
    seq(|categories|, i requires 0 <= i < |categories| => CATEGORIES[categories[i]])
  }

  /** The category loop of `Integration.__init__`: raises on the first
      unknown category, otherwise yields the categories' labels in order. */
  method CheckCategories(name: string, categories: seq<string>) returns (r: Result<seq<string>, CategoryError>)
    ensures r.Success? <==> KnownCategories(categories)
    ensures r.Success? ==> r.value == Labels(categories)
    ensures r.Success? ==> |r.value| == |categories|
    ensures r.Success? ==> forall i :: 0 <= i < |categories| ==> r.value[i] == CATEGORIES[categories[i]]
    ensures r.Failure? ==> r.error == UnknownCategory(name, categories[FirstUnknown(categories)])
  {
    for i := 0 to |categories|
      invariant forall j :: 0 <= j < i ==> categories[j] in CATEGORIES
    {
      if categories[i] !in CATEGORIES {
        return Failure(UnknownCategory(name, categories[i]));
      }
    }
    r := Success(Labels(categories));
  }

  // ---------------------------------------------------------------------
  // Name-derived defaults (the classes' format-string constants)

  /** `WebhookIntegration.DEFAULT_CLIENT_NAME`. */
  function WebhookClientName(name: string): string { "Zulip" + Title(name) + "Webhook" }

  /** `WebhookIntegration.DEFAULT_FUNCTION_PATH`. */
  function WebhookViewPath(name: string): string { "zerver.webhooks." + name + ".view.api_" + name + "_webhook" }

  /** `WebhookIntegration.DEFAULT_URL`. */
  function WebhookUrl(name: string): string { "api/v1/external/" + name }

  /** `DEFAULT_DOC_PATH` of the bot and webhook classes. */
  function DocPath(name: string): string { name + "/doc.md" }

  /** `HubotIntegration.GIT_URL_TEMPLATE`. */
  function HubotGitUrl(name: string): string { "https://github.com/hubot-scripts/hubot-" + name }

  /** The default alt text of a hubot integration's logo. */
  function HubotLogoAlt(name: string): string { Title(name) + " logo" }

  /** `EmbeddedBotIntegration.DEFAULT_CLIENT_NAME`. */
  function EmbeddedBotClientName(name: string): string { "Zulip" + Title(name) + "EmbeddedBot" }

  // ---------------------------------------------------------------------
  // Logos

  /** `DEFAULT_LOGO_STATIC_PATH_SVG` of the class, formatted with the name. */
  function LogoSvgPath(kind: Kind, name: string): string {
    if kind == Bot then "static/generated/bots/" + name + "/logo.svg"
    else "static/images/integrations/logos/" + name + ".svg"
  }

  /** `DEFAULT_LOGO_STATIC_PATH_PNG` of the class, formatted with the name. */
  function LogoPngPath(kind: Kind, name: string): string {
    if kind == Bot then "static/generated/bots/" + name + "/logo.png"
    else "static/images/integrations/logos/" + name + ".png"
  }

  /** `get_logo_url`: the svg logo if it exists, else the png logo if it
      exists, else nothing. */
  function GetLogoUrl(kind: Kind, name: string, files: set<string>): (r: Option<string>)
    ensures r.None? <==> LogoSvgPath(kind, name) !in files && LogoPngPath(kind, name) !in files
    ensures r.Some? ==> r.value in files
    ensures r.Some? ==> r.value == LogoSvgPath(kind, name) || LogoSvgPath(kind, name) !in files
    ensures r.Some? ==> r.value == LogoSvgPath(kind, name) || r.value == LogoPngPath(kind, name)
  {
    if LogoSvgPath(kind, name) in files then Some(LogoSvgPath(kind, name))
    else if LogoPngPath(kind, name) in files then Some(LogoPngPath(kind, name))
    else None
  }

  // ---------------------------------------------------------------------
  // The integration record

  class Integration {
    const kind: Kind
    const name: string
    var clientName: string
    var secondaryLineText: Option<string>
    var legacy: bool
    var doc: Option<string>
    var docContext: Option<map<string, string>>
    var categories: seq<string>
    var logo: Option<string>
    var displayName: string
    var streamName: string
    /** Webhook and GitHub integrations: the dotted path of the view and the URL. */
    var view: Option<string>
    var url: Option<string>
    /** Hubot integrations: the logo's alt text and the script's documentation. */
    var logoAlt: Option<string>
    var hubotDocsUrl: Option<string>

    /** `Integration.__init__` once the categories are known to be valid:
        `categoryLabels` is what the category loop produced. */
    constructor Init(kind: Kind, name: string, clientName: string, categoryLabels: seq<string>,
                     logo: Option<string>, secondaryLineText: Option<string>, displayName: Option<string>,
                     doc: Option<string>, streamName: Option<string>, legacy: bool, files: set<string>)
      ensures this.kind == kind && this.name == name && this.clientName == clientName
      ensures this.secondaryLineText == secondaryLineText && this.legacy == legacy
      ensures this.doc == doc && this.docContext == None && this.categories == categoryLabels
      ensures this.logo == logo.Or(GetLogoUrl(kind, name, files))
      ensures this.displayName == displayName.GetOr(Title(name))
      ensures this.streamName == streamName.GetOr(name)
      ensures view == None && url == None && logoAlt == None && hubotDocsUrl == None
    {
      this.kind := kind;
      this.name := name;
      this.clientName := clientName;
      this.secondaryLineText := secondaryLineText;
      this.legacy := legacy;
      this.doc := doc;
      this.docContext := None;
      this.categories := categoryLabels;
      this.logo := logo.Or(GetLogoUrl(kind, name, files));
      this.displayName := displayName.GetOr(Title(name));
      this.streamName := streamName.GetOr(name);
      view, url, logoAlt, hubotDocsUrl := None, None, None, None;
    }

    /** `add_doc_context`. */
    method AddDocContext(context: map<string, string>)
      modifies this`docContext
      ensures docContext == Some(context)
    {
      docContext := Some(context);
    }

    /** `url_object`: a GitHub integration has none; any other webhook
        integration has the pattern for its URL and view. */
    function UrlObject(): (r: Option<UrlPattern>)
      reads this
      requires kind == Webhook || kind == Github
      requires url.Some? && view.Some?
      ensures r.None? <==> kind == Github
      ensures r.Some? ==> r.value.regex == url.value && r.value.view == view.value
    {
      if kind == Github then None else Some(UrlPattern(url.value, view.value))
    }
  }

  // ---------------------------------------------------------------------
  // Constructors

  /** `Integration(name, client_name, categories, ...)`. */
  method NewIntegration(name: string, clientName: string, categories: seq<string>, logo: Option<string>,
                        secondaryLineText: Option<string>, displayName: Option<string>, doc: Option<string>,
                        streamName: Option<string>, legacy: bool, files: set<string>)
    returns (r: Result<Integration, CategoryError>)
    ensures r.Success? <==> KnownCategories(categories)
    ensures r.Failure? ==> r.error == UnknownCategory(name, categories[FirstUnknown(categories)])
    ensures r.Success? ==> var it := r.value;
      && fresh(it) && it.kind == Plain && it.name == name && it.clientName == clientName
      && it.categories == Labels(categories) && it.secondaryLineText == secondaryLineText
      && it.legacy == legacy && it.doc == doc && it.docContext == None
      && it.logo == logo.Or(GetLogoUrl(Plain, name, files))
      && it.displayName == displayName.GetOr(Title(name))
      && it.streamName == streamName.GetOr(name)
  {
    var labels :- CheckCategories(name, categories);
    var it := new Integration.Init(Plain, name, clientName, labels, logo, secondaryLineText,
                                   displayName, doc, streamName, legacy, files);
    r := Success(it);
  }

  /** `BotIntegration(name, categories, ...)`: the client is the name, the
      logo falls back to Zulip's own, " Bot" is appended to the display
      name and the doc defaults to `<name>/doc.md`. */
  method NewBotIntegration(name: string, categories: seq<string>, logo: Option<string>,
                           secondaryLineText: Option<string>, displayName: Option<string>,
                           doc: Option<string>, files: set<string>)
    returns (r: Result<Integration, CategoryError>)
    ensures r.Success? <==> KnownCategories(categories)
    ensures r.Failure? ==> r.error == UnknownCategory(name, categories[FirstUnknown(categories)])
    ensures r.Success? ==> var it := r.value;
      && fresh(it) && it.kind == Bot && it.name == name && it.clientName == name
      && it.categories == Labels(categories) && it.secondaryLineText == secondaryLineText
      && !it.legacy && it.docContext == None && it.streamName == name
      && it.logo == Some(logo.GetOr(GetLogoUrl(Bot, name, files).GetOr(ZULIP_LOGO_STATIC_PATH_PNG)))
      && it.displayName == displayName.GetOr(Title(name)) + " Bot"
      && it.doc == Some(doc.GetOr(DocPath(name)))
  {
    var labels :- CheckCategories(name, categories);
    var it := new Integration.Init(Bot, name, name, labels, None, secondaryLineText,
                                   None, None, None, false, files);
    var botLogo: string;
    if logo.None? {
      var logoUrl := GetLogoUrl(Bot, name, files);
      if logoUrl.Some? {
        botLogo := logoUrl.value;
      } else {
        botLogo := ZULIP_LOGO_STATIC_PATH_PNG;
      }
    } else {
      botLogo := logo.value;
    }
    it.logo := Some(botLogo);
    if displayName.None? {
      it.displayName := Title(name) + " Bot";
    } else {
      it.displayName := displayName.value + " Bot";
    }
    it.doc := Some(doc.GetOr(DocPath(name)));
    r := Success(it);
  }

  /** `WebhookIntegration.__init__`, run for a webhook integration or, with
      `kind == Github`, for a GitHub integration. */
  method NewWebhookIntegration(kind: Kind, name: string, categories: seq<string>, clientName: Option<string>,
                               logo: Option<string>, secondaryLineText: Option<string>, view: Option<string>,
                               url: Option<string>, displayName: Option<string>, doc: Option<string>,
                               streamName: Option<string>, legacy: bool, files: set<string>)
    returns (r: Result<Integration, CategoryError>)
    requires kind == Webhook || kind == Github
    ensures r.Success? <==> KnownCategories(categories)
    ensures r.Failure? ==> r.error == UnknownCategory(name, categories[FirstUnknown(categories)])
    ensures r.Success? ==> var it := r.value;
      && fresh(it) && it.kind == kind && it.name == name
      && it.clientName == clientName.GetOr(WebhookClientName(name))
      && it.categories == Labels(categories) && it.secondaryLineText == secondaryLineText
      && it.legacy == legacy && it.docContext == None
      && it.logo == logo.Or(GetLogoUrl(kind, name, files))
      && it.displayName == displayName.GetOr(Title(name))
      && it.streamName == streamName.GetOr(name)
      && it.view == Some(view.GetOr(WebhookViewPath(name)))
      && it.url == Some(url.GetOr(WebhookUrl(name)))
      && it.doc == Some(doc.GetOr(DocPath(name)))
  {
    var client := clientName.GetOr(WebhookClientName(name));
    var labels :- CheckCategories(name, categories);
    var it := new Integration.Init(kind, name, client, labels, logo, secondaryLineText,
                                   displayName, None, streamName, legacy, files);
    it.view := Some(view.GetOr(WebhookViewPath(name)));
    it.url := Some(url.GetOr(WebhookUrl(name)));
    it.doc := Some(doc.GetOr(DocPath(name)));
    r := Success(it);
  }

  /** `GithubIntegration(...)`: a webhook integration whose URL is always
      `api/v1/external/github`, whatever URL is passed, and that has no
      URL object. */
  method NewGithubIntegration(name: string, categories: seq<string>, clientName: Option<string>,
                              logo: Option<string>, secondaryLineText: Option<string>, view: Option<string>,
                              url: Option<string>, displayName: Option<string>, doc: Option<string>,
                              streamName: Option<string>, legacy: bool, files: set<string>)
    returns (r: Result<Integration, CategoryError>)
    ensures r.Success? <==> KnownCategories(categories)
    ensures r.Failure? ==> r.error == UnknownCategory(name, categories[FirstUnknown(categories)])
    ensures r.Success? ==> var it := r.value;
      && fresh(it) && it.kind == Github && it.name == name
      && it.url == Some(WebhookUrl("github")) && it.view.Some? && it.UrlObject() == None
      && it.clientName == clientName.GetOr(WebhookClientName(name))
      && it.categories == Labels(categories) && it.secondaryLineText == secondaryLineText
      && it.legacy == legacy && it.docContext == None
      && it.logo == logo.Or(GetLogoUrl(Github, name, files))
      && it.displayName == displayName.GetOr(Title(name))
      && it.streamName == streamName.GetOr(name)
      && it.view == Some(view.GetOr(WebhookViewPath(name)))
      && it.doc == Some(doc.GetOr(DocPath(name)))
  {
    r := NewWebhookIntegration(Github, name, categories, clientName, logo, secondaryLineText, view,
                               Some(WebhookUrl("github")), displayName, doc, streamName, legacy, files);
  }

  /** `HubotIntegration(name, categories, ...)`: the alt text and the
      script URL are defaulted from the name and the doc is the common
      hubot page. */
  method NewHubotIntegration(name: string, categories: seq<string>, displayName: Option<string>,
                             logo: Option<string>, logoAlt: Option<string>, gitUrl: Option<string>,
                             legacy: bool, files: set<string>)
    returns (r: Result<Integration, CategoryError>)
    ensures r.Success? <==> KnownCategories(categories)
    ensures r.Failure? ==> r.error == UnknownCategory(name, categories[FirstUnknown(categories)])
    ensures r.Success? ==> var it := r.value;
      && fresh(it) && it.kind == Hubot && it.name == name && it.clientName == name
      && it.categories == Labels(categories) && it.secondaryLineText == None
      && it.legacy == legacy && it.docContext == None && it.streamName == name
      && it.logo == logo.Or(GetLogoUrl(Hubot, name, files))
      && it.displayName == displayName.GetOr(Title(name))
      && it.logoAlt == Some(logoAlt.GetOr(HubotLogoAlt(name)))
      && it.hubotDocsUrl == Some(gitUrl.GetOr(HubotGitUrl(name)))
      && it.doc == Some(HUBOT_COMMON_DOC)
  {
    var alt := logoAlt.GetOr(HubotLogoAlt(name));
    var docsUrl := gitUrl.GetOr(HubotGitUrl(name));
    var labels :- CheckCategories(name, categories);
    var it := new Integration.Init(Hubot, name, name, labels, logo, None, displayName,
                                   Some(HUBOT_COMMON_DOC), None, legacy, files);
    it.logoAlt := Some(alt);
    it.hubotDocsUrl := Some(docsUrl);
    r := Success(it);
  }

  /** `EmbeddedBotIntegration(name, *args, **kwargs)`: the client name is
      always derived from the name; the source asserts that no client name
      is passed. `clientName == None` stands for "not passed": an explicit
      `client_name=None` makes Python raise a `TypeError` for the duplicate
      keyword, which is not modelled. */
  method NewEmbeddedBotIntegration(name: string, clientName: Option<string>, categories: seq<string>,
                                   logo: Option<string>, secondaryLineText: Option<string>,
                                   displayName: Option<string>, doc: Option<string>,
                                   streamName: Option<string>, legacy: bool, files: set<string>)
    returns (r: Result<Integration, CategoryError>)
    requires clientName.None?
    ensures r.Success? <==> KnownCategories(categories)
    ensures r.Failure? ==> r.error == UnknownCategory(name, categories[FirstUnknown(categories)])
    ensures r.Success? ==> var it := r.value;
      && fresh(it) && it.kind == EmbeddedBot && it.name == name
      && it.clientName == EmbeddedBotClientName(name)
      && it.categories == Labels(categories) && it.secondaryLineText == secondaryLineText
      && it.legacy == legacy && it.doc == doc && it.docContext == None
      && it.logo == logo.Or(GetLogoUrl(EmbeddedBot, name, files))
      && it.displayName == displayName.GetOr(Title(name))
      && it.streamName == streamName.GetOr(name)
  {
    var client := EmbeddedBotClientName(name);
    var labels :- CheckCategories(name, categories);
    var it := new Integration.Init(EmbeddedBot, name, client, labels, logo, secondaryLineText,
                                   displayName, doc, streamName, legacy, files);
    r := Success(it);
  }

  // ---------------------------------------------------------------------
  // The registry

  /** `INTEGRATIONS` after `for x in xs: INTEGRATIONS[x.name] = x`. */
  function Registered(m: map<string, Integration>, xs: seq<Integration>): (r: map<string, Integration>)
    ensures forall k :: k in r <==> k in m || exists i :: 0 <= i < |xs| && xs[i].name == k
    decreases |xs|
  {
    if xs == [] then m
    else Registered(m, xs[..|xs| - 1])[xs[|xs| - 1].name := xs[|xs| - 1]]
  }

  lemma RegisteredAppend(m: map<string, Integration>, xs: seq<Integration>, x: Integration)
    ensures Registered(m, xs + [x]) == Registered(m, xs)[x.name := x]
  {
    assert (xs + [x])[..|xs|] == xs;
  }

  lemma RegisteredOne(m: map<string, Integration>, x: Integration)
    ensures Registered(m, [x]) == m[x.name := x]
  {
    RegisteredAppend(m, [], x);
    assert [] + [x] == [x];
  }

  /** The position of the last integration named `k`, if any. */
  function LastNamed(xs: seq<Integration>, k: string): (r: Option<nat>)
    ensures r.None? <==> forall i :: 0 <= i < |xs| ==> xs[i].name != k
    ensures r.Some? ==> r.value < |xs| && xs[r.value].name == k
    ensures r.Some? ==> forall j :: r.value < j < |xs| ==> xs[j].name != k
    decreases |xs|
  {
    if xs == [] then None
    else if xs[|xs| - 1].name == k then Some(|xs| - 1)
    else LastNamed(xs[..|xs| - 1], k)
  }

  /** After a merge loop, a name that some integration carries maps to the
      last integration with that name; every other key is as before. */
  lemma {:induction false} RegisteredAt(m: map<string, Integration>, xs: seq<Integration>, k: string)
    ensures LastNamed(xs, k).Some? ==> k in Registered(m, xs) && Registered(m, xs)[k] == xs[LastNamed(xs, k).value]
    ensures LastNamed(xs, k).None? ==> (k in Registered(m, xs) <==> k in m)
    ensures LastNamed(xs, k).None? && k in m ==> Registered(m, xs)[k] == m[k]
    decreases |xs|
  {
    if xs != [] {
      RegisteredAt(m, xs[..|xs| - 1], k);
    }
  }

  /** `INTEGRATIONS` after the three merge loops of the module. */
  function MergedRegistry(m: map<string, Integration>, hubots: seq<Integration>,
                          webhooks: seq<Integration>, bots: seq<Integration>): map<string, Integration>
  {
    Registered(Registered(Registered(m, hubots), webhooks), bots)
  }

  /** After the merge loops every hubot, webhook and bot integration is
      registered; on a shared name a bot wins over a webhook, which wins
      over a hubot; keys that none of them carries keep their entry. */
  lemma MergePriority(m: map<string, Integration>, hubots: seq<Integration>,
                      webhooks: seq<Integration>, bots: seq<Integration>, k: string)
    ensures var r := MergedRegistry(m, hubots, webhooks, bots);
      LastNamed(bots, k).Some? ==> k in r && r[k] == bots[LastNamed(bots, k).value]
    ensures var r := MergedRegistry(m, hubots, webhooks, bots);
      LastNamed(bots, k).None? && LastNamed(webhooks, k).Some? ==>
        k in r && r[k] == webhooks[LastNamed(webhooks, k).value]
    ensures var r := MergedRegistry(m, hubots, webhooks, bots);
      LastNamed(bots, k).None? && LastNamed(webhooks, k).None? && LastNamed(hubots, k).Some? ==>
        k in r && r[k] == hubots[LastNamed(hubots, k).value]
    ensures var r := MergedRegistry(m, hubots, webhooks, bots);
      LastNamed(bots, k).None? && LastNamed(webhooks, k).None? && LastNamed(hubots, k).None? ==>
        (k in r <==> k in m) && (k in m ==> r[k] == m[k])
  {
    var r1 := Registered(m, hubots);
    var r2 := Registered(r1, webhooks);
    RegisteredAt(m, hubots, k);
    RegisteredAt(r1, webhooks, k);
    RegisteredAt(r2, bots, k);
  }

  /** Every integration of the three tables is registered under its name. */
  lemma MergeRegistersAll(m: map<string, Integration>, hubots: seq<Integration>,
                          webhooks: seq<Integration>, bots: seq<Integration>)
    ensures forall x :: x in hubots || x in webhooks || x in bots ==>
      x.name in MergedRegistry(m, hubots, webhooks, bots)
  {
    forall x | x in hubots || x in webhooks || x in bots
      ensures x.name in MergedRegistry(m, hubots, webhooks, bots)
    {
      MergePriority(m, hubots, webhooks, bots, x.name);
    }
  }

  /** The `INTEGRATIONS` dictionary. */
  class Registry {
    var integrations: map<string, Integration>

    constructor (initial: map<string, Integration>)
      ensures integrations == initial
    {
      integrations := initial;
    }

    /** One merge loop: `for x in xs: INTEGRATIONS[x.name] = x`. */
    method Register(xs: seq<Integration>)
      modifies this
      ensures integrations == Registered(old(integrations), xs)
    {
      for i := 0 to |xs|
        invariant integrations == Registered(old(integrations), xs[..i])
      {
        assert xs[..i + 1][..i] == xs[..i];
        integrations := integrations[xs[i].name := xs[i]];
      }
      assert xs[..|xs|] == xs;
    }

    /** The three merge loops at the end of the module, in their order. */
    method MergeTables(hubots: seq<Integration>, webhooks: seq<Integration>, bots: seq<Integration>)
      modifies this
      ensures integrations == MergedRegistry(old(integrations), hubots, webhooks, bots)
    {
      Register(hubots);
      Register(webhooks);
      Register(bots);
    }
  }

  /** Merging entries taken from the module's tables: a plain integration
      already in `INTEGRATIONS`, the hubot table, three webhook integrations
      (two of them GitHub's) and one bot. No two share a name, so each ends
      up under its own. */
  lemma SampleMerge(git: Integration, assembla: Integration, airbrake: Integration, github: Integration,
                    githubWebhook: Integration, xkcd: Integration)
    requires git.name == "git" && assembla.name == "assembla" && airbrake.name == "airbrake"
    requires github.name == "github" && githubWebhook.name == "github_webhook" && xkcd.name == "xkcd"
    ensures MergedRegistry(map["git" := git], [assembla], [airbrake, github, githubWebhook], [xkcd])
      == map["git" := git, "assembla" := assembla, "airbrake" := airbrake, "github" := github,
             "github_webhook" := githubWebhook, "xkcd" := xkcd]
  {
    var m0: map<string, Integration> := map["git" := git];
    RegisteredOne(m0, assembla);
    var m1: map<string, Integration> := m0["assembla" := assembla];
    RegisteredOne(m1, airbrake);
    RegisteredAppend(m1, [airbrake], github);
    assert [airbrake] + [github] == [airbrake, github];
    RegisteredAppend(m1, [airbrake, github], githubWebhook);
    assert [airbrake, github] + [githubWebhook] == [airbrake, github, githubWebhook];
    var m2: map<string, Integration> := m1["airbrake" := airbrake]["github" := github]["github_webhook" := githubWebhook];
    RegisteredOne(m2, xkcd);
  }
}
