/**
 * User-field validators and user resolvers (zerver/lib/users.py).
 *
 * The user table is an in-memory sequence of `UserProfile` rows; a query set
 * is a sequence of rows in the order the database returns them. The cache
 * engine `generic_bulk_cached_fetch` is not part of this model: it is a
 * parameter of `BulkGetUsers`, and this module fixes only what users.py
 * hands to it.
 */
module Users {
  import opened Wrappers
  import opened Text

  type RealmId = int

  /** The fields of a user account that this module reads. */
  datatype UserProfile = UserProfile(id: int, email: string, realm: RealmId, isActive: bool)

  /** The policy constants users.py reads from `UserProfile` and `Service`
      (`MAX_NAME_LENGTH`, `MIN_NAME_LENGTH`, `NAME_INVALID_CHARS`,
      `ALLOWED_BOT_TYPES`, `ALLOWED_INTERFACE_TYPES`). */
  datatype UserPolicy = UserPolicy(
    maxNameLength: nat,
    minNameLength: nat,
    nameInvalidChars: set<char>,
    allowedBotTypes: seq<int>,
    allowedInterfaceTypes: seq<int>)

  /** The `JsonableError`s raised here, by kind. */
  datatype UserError =
    | NameTooLong
    | NameTooShort
    | NameInvalidChars
    | BadShortName
    | InvalidBotType
    | InvalidInterfaceType
    | InvalidUserId(id: int)

  // ---------------------------------------------------------------------
  // Field validators

  predicate HasCharIn(s: string, chars: set<char>) {
    exists i :: 0 <= i < |s| && s[i] in chars
  }

  /** `set(s)`. */
  function CharSet(s: string): (r: set<char>)
    ensures forall c :: c in r <==> c in s
  {
    set i | 0 <= i < |s| :: s[i]
  }

  /** `check_full_name`: strips the input, then checks, in this order, the
      maximum length, the minimum length and the forbidden characters. */
  function CheckFullName(p: UserPolicy, raw: string): (r: Result<string, UserError>)
    ensures r.Success? <==>
      p.minNameLength <= |Strip(raw)| <= p.maxNameLength && !HasCharIn(Strip(raw), p.nameInvalidChars)
    ensures r.Success? ==> r.value == Strip(raw)
    ensures r == Failure(NameTooLong) <==> |Strip(raw)| > p.maxNameLength
    ensures r == Failure(NameTooShort) <==> |Strip(raw)| <= p.maxNameLength && |Strip(raw)| < p.minNameLength
    ensures r == Failure(NameInvalidChars) <==>
      p.minNameLength <= |Strip(raw)| <= p.maxNameLength && HasCharIn(Strip(raw), p.nameInvalidChars)
  {
    var fullName := Strip(raw);
    if |fullName| > p.maxNameLength then Failure(NameTooLong)
    else if |fullName| < p.minNameLength then Failure(NameTooShort)
    else if CharSet(fullName) * p.nameInvalidChars != {} then
      assert exists c :: c in CharSet(fullName) && c in p.nameInvalidChars;
      Failure(NameInvalidChars)
    else
      assert !HasCharIn(fullName, p.nameInvalidChars) by {
        forall i | 0 <= i < |fullName| ensures fullName[i] !in p.nameInvalidChars {
          assert fullName[i] in CharSet(fullName);
          assert fullName[i] !in CharSet(fullName) * p.nameInvalidChars;
        }
      }
      Success(fullName)
  }

  /** `check_short_name`: strips the input and rejects an empty result. */
  function CheckShortName(raw: string): (r: Result<string, UserError>)
    ensures r.Failure? <==> Strip(raw) == []
    ensures r.Failure? ==> r.error == BadShortName
    ensures r.Success? ==> r.value == Strip(raw)
  {
    var shortName := Strip(raw);
    if |shortName| == 0 then Failure(BadShortName) else Success(shortName)
  }

  /** `check_valid_bot_type`: an allow-list membership check. */
  function CheckValidBotType(p: UserPolicy, botType: int): (r: Outcome<UserError>)
    ensures r.Pass? <==> botType in p.allowedBotTypes
    ensures r.Fail? ==> r.error == InvalidBotType
  {
    if botType !in p.allowedBotTypes then Fail(InvalidBotType) else Pass
  }

  /** `check_valid_interface_type`: an allow-list membership check. */
  function CheckValidInterfaceType(p: UserPolicy, interfaceType: int): (r: Outcome<UserError>)
    ensures r.Pass? <==> interfaceType in p.allowedInterfaceTypes
    ensures r.Fail? ==> r.error == InvalidInterfaceType
  {
    if interfaceType !in p.allowedInterfaceTypes then Fail(InvalidInterfaceType) else Pass
  }

  /** A name that passed `check_full_name` passes it again unchanged: the
      stored value is a fixed point of the validator. */
  lemma FullNameIsFixedPoint(p: UserPolicy, raw: string)
    requires CheckFullName(p, raw).Success?
    ensures CheckFullName(p, CheckFullName(p, raw).value) == CheckFullName(p, raw)
  {
    StripIdempotent(raw);
  }

  /** Whitespace around a full name never changes the verdict or the value. */
  lemma FullNameIgnoresPadding(p: UserPolicy, a: string, raw: string, b: string)
    requires AllSpace(a) && AllSpace(b)
    ensures CheckFullName(p, a + raw + b) == CheckFullName(p, raw)
  {
    StripIgnoresPadding(a, raw, b);
  }

  /** An accepted full name has no surrounding whitespace and lies inside
      the input. */
  lemma FullNameIsTrimmed(p: UserPolicy, raw: string)
    requires CheckFullName(p, raw).Success?
    ensures var name := CheckFullName(p, raw).value;
      name != [] ==> !IsSpace(name[0]) && !IsSpace(name[|name| - 1])
    ensures var i := SkipSpaces(raw, 0); var name := CheckFullName(p, raw).value;
      i + |name| <= |raw| && name == raw[i..i + |name|]
  {
    StripIsTrimmedSlice(raw);
  }

  /** A short name that passed `check_short_name` passes it again unchanged. */
  lemma ShortNameIsFixedPoint(raw: string)
    requires CheckShortName(raw).Success?
    ensures CheckShortName(CheckShortName(raw).value) == CheckShortName(raw)
  {
    StripIdempotent(raw);
  }

  /** Whitespace around a short name never changes the verdict or the value. */
  lemma ShortNameIgnoresPadding(a: string, raw: string, b: string)
    requires AllSpace(a) && AllSpace(b)
    ensures CheckShortName(a + raw + b) == CheckShortName(raw)
  {
    StripIgnoresPadding(a, raw, b);
  }

  /** The two worked cases: blanks only are rejected, and "  bob  " is
      accepted as "bob". */
  lemma ShortNameExamples()
    ensures CheckShortName("   ") == Failure(BadShortName)
    ensures CheckShortName("  bob  ") == Success("bob")
  {
    assert AllSpace("   ") && AllSpace("  ");
    assert "   " == "   " + [] + [];
    StripOfPadded("   ", [], []);
    assert "  bob  " == "  " + "bob" + "  ";
    StripOfPadded("  ", "bob", "  ");
  }

  // ---------------------------------------------------------------------
  // Resolving users by id

  /** `get_user_profile_by_id`: the row with that id, if any. */
  function LookupById(db: seq<UserProfile>, id: int): (r: Option<UserProfile>)
    ensures r.Some? ==> r.value in db && r.value.id == id
    ensures r.None? <==> forall u :: u in db ==> u.id != id
  {
    if db == [] then None
    else if db[0].id == id then Some(db[0])
    else LookupById(db[1..], id)
  }

  /** The id names a user of that realm: the condition under which
      `user_ids_to_users` accepts it. */
  predicate Resolves(db: seq<UserProfile>, id: int, realm: RealmId) {
    LookupById(db, id).Some? && LookupById(db, id).value.realm == realm
  }

  /** `user_ids_to_users`: resolves each id in order and fails on the first
      id that does not exist or belongs to another realm, with the same
      error either way. The ghost `examined` lists the ids looked up. */
  method UserIdsToUsers(db: seq<UserProfile>, userIds: seq<int>, realm: RealmId)
    returns (r: Result<seq<UserProfile>, UserError>, ghost examined: seq<int>)
    ensures r.Success? <==> forall i :: 0 <= i < |userIds| ==> Resolves(db, userIds[i], realm)
    ensures r.Success? ==> examined == userIds && |r.value| == |userIds|
    ensures r.Success? ==> forall i :: 0 <= i < |userIds| ==>
      r.value[i] == LookupById(db, userIds[i]).value && r.value[i] in db
      && r.value[i].id == userIds[i] && r.value[i].realm == realm
    ensures r.Failure? ==> exists k :: (0 <= k < |userIds| && !Resolves(db, userIds[k], realm)
      && (forall j :: 0 <= j < k ==> Resolves(db, userIds[j], realm))
      && r.error == InvalidUserId(userIds[k]) && examined == userIds[..k + 1])
  {
    var userProfiles: seq<UserProfile> := [];
    examined := [];
    for n := 0 to |userIds|
      invariant |userProfiles| == n && examined == userIds[..n]
      invariant forall i :: 0 <= i < n ==> Resolves(db, userIds[i], realm)
      invariant forall i :: 0 <= i < n ==> userProfiles[i] == LookupById(db, userIds[i]).value
    {
      var userId := userIds[n];
      examined := examined + [userId];
      var found := LookupById(db, userId);
      if found.None? {
        return Failure(InvalidUserId(userId)), examined;
      }
      if found.value.realm != realm {
        return Failure(InvalidUserId(userId)), examined;
      }
      userProfiles := userProfiles + [found.value];
    }
    assert examined == userIds;
    r := Success(userProfiles);
  }

  // ---------------------------------------------------------------------
  // Resolving users by email

  /** `UserProfile.objects.filter(realm=realm, is_active=True)`. */
  function ActiveInRealm(db: seq<UserProfile>, realm: RealmId): (q: seq<UserProfile>)
    ensures forall u :: u in q <==> u in db && u.realm == realm && u.isActive
  {
    if db == [] then []
    else
      var rest := ActiveInRealm(db[1..], realm);
      if db[0].realm == realm && db[0].isActive then [db[0]] + rest else rest
  }

  /** The extra WHERE clause and its parameters. */
  datatype EmailQuery = EmailQuery(where: string, params: seq<string>)

  /** `"UPPER(zerver_userprofile.email::text) IN (%s)" % upper_list` where
      `upper_list` joins `n` copies of `UPPER(%s)` with ", ". */
  function EmailWhereClause(n: nat): string {
    EmailClauseHead + Join(", ", Repeat(Placeholder, n)) + ")"
  }

  const EmailClauseHead := "UPPER(zerver_userprofile.email::text) IN ("
  const Placeholder := "UPPER(%s)"

  lemma PlaceholderHasOneMarker()
    ensures Count(Placeholder, '%') == 1
  {
    CountAbsent("s)", '%');
    assert Count("%s)", '%') == 1;
    CountAbsent("UPPER(", '%');
    CountAppend("UPPER(", "%s)", '%');
    assert Placeholder == "UPPER(" + "%s)";
  }

  lemma ClauseHeadHasNoMarker()
    ensures Count(EmailClauseHead, '%') == 0
  {
    CountAbsent(EmailClauseHead, '%');
  }

  lemma SeparatorAndTailHaveNoMarker()
    ensures Count(", ", '%') == 0 && Count(")", '%') == 0
  {
    CountAbsent(", ", '%');
    CountAbsent(")", '%');
  }

  /** The clause has exactly one `%s` placeholder per email. */
  lemma EmailWhereClausePlaceholders(n: nat)
    ensures Count(EmailWhereClause(n), '%') == n
  {
    PlaceholderHasOneMarker();
    ClauseHeadHasNoMarker();
    SeparatorAndTailHaveNoMarker();
    CountFramedRepeat(EmailClauseHead, ", ", Placeholder, ")", n, '%');
  }

  /** The query `fetch_users_by_email` sends, or None when it returns early
      on an empty list. */
  function BuildEmailQuery(emails: seq<string>): (r: Option<EmailQuery>)
    ensures r.None? <==> emails == []
    ensures r.Some? ==> r.value.params == emails && Count(r.value.where, '%') == |emails|
  {
    if |emails| == 0 then None
    else
      EmailWhereClausePlaceholders(|emails|);
      Some(EmailQuery(EmailWhereClause(|emails|), emails))
  }

  /** `[s.upper() for s in ss]`. */
  function Uppers(ss: seq<string>): (r: seq<string>)
    ensures |r| == |ss| && forall i :: 0 <= i < |ss| ==> r[i] == Upper(ss[i])
  {
    seq(|ss|, i requires 0 <= i < |ss| => Upper(ss[i]))
  }

  /** The rows of `rows`, in order, whose upper-cased email is in `uppers`. */
  function RowsWithUpperEmailIn(rows: seq<UserProfile>, uppers: seq<string>): (r: seq<UserProfile>)
    ensures |r| <= |rows|
    ensures forall u :: u in r <==> u in rows && Upper(u.email) in uppers
  {
    if rows == [] then []
    else
      var rest := RowsWithUpperEmailIn(rows[1..], uppers);
      if Upper(rows[0].email) in uppers then [rows[0]] + rest else rest
  }

  /** The database's evaluation of `base_query.extra(where=[q.where],
      params=q.params)`, where `q.where` is the clause `EmailWhereClause`
      builds for the parameters, meaning
      `UPPER(email) IN (UPPER(p1), ..., UPPER(pn))`: the base-query rows, in
      order, whose upper-cased email equals an upper-cased parameter. */
  function RunEmailQuery(baseQuery: seq<UserProfile>, q: EmailQuery): (r: seq<UserProfile>)
    requires q.where == EmailWhereClause(|q.params|)
    ensures |r| <= |baseQuery|
    ensures forall u :: u in r <==>
      u in baseQuery && exists i :: 0 <= i < |q.params| && Upper(u.email) == Upper(q.params[i])
  {
    RowsWithUpperEmailIn(baseQuery, Uppers(q.params))
  }

  /** `fetch_users_by_email`: the base-query rows whose email equals one of
      `emails` ignoring case; nothing (and no query) for an empty list. */
  function FetchUsersByEmail(baseQuery: seq<UserProfile>, emails: seq<string>): (r: seq<UserProfile>)
    ensures emails == [] ==> r == []
    ensures forall u :: u in r <==>
      u in baseQuery && exists i :: 0 <= i < |emails| && Upper(u.email) == Upper(emails[i])
  {
    match BuildEmailQuery(emails)
    case None => []
    case Some(q) => RunEmailQuery(baseQuery, q)
  }

  /** What `bulk_get_users` hands to `generic_bulk_cached_fetch`: the
      lower-cased keys and the query set its fetcher filters. The fetcher
      and the `id_fetcher` are the two member functions. */
  datatype CachedFetch = CachedFetch(keys: seq<string>, candidates: seq<UserProfile>) {
    /** The fetcher `fetch_users_by_email`, applied to the candidates. */
    function Fetch(emails: seq<string>): (r: seq<UserProfile>)
      ensures forall u :: u in r <==>
        u in candidates && exists i :: 0 <= i < |emails| && Upper(u.email) == Upper(emails[i])
    {
      FetchUsersByEmail(candidates, emails)
    }

    /** The `id_fetcher`: a row's cache key is its lower-cased email, which
        is already a key (lower-casing it again changes nothing) and names
        the same address for `UPPER` matching. */
    function IdOf(u: UserProfile): (k: string)
      ensures Lower(k) == k
      ensures Upper(k) == Upper(u.email)
    {
      LowerIdempotent(u.email);
      UpperOfLower(u.email);
      Lower(u.email)
    }
  }

  /** The cache engine, left uninterpreted. */
  type Engine = CachedFetch -> map<string, UserProfile>

  /** The arguments of the engine call in `bulk_get_users`: without a
      `base_query`, the candidates are the active users of the (required)
      realm; the keys are the lower-cased emails, in order. */
  function BulkFetchRequest(db: seq<UserProfile>, emails: seq<string>, realm: Option<RealmId>,
                            baseQuery: Option<seq<UserProfile>>): (c: CachedFetch)
    requires baseQuery.Some? || realm.Some?
    ensures |c.keys| == |emails| && forall i :: 0 <= i < |emails| ==> c.keys[i] == Lower(emails[i])
    ensures baseQuery.Some? ==> c.candidates == baseQuery.value
    ensures baseQuery.None? ==> forall u :: u in c.candidates <==>
      u in db && u.realm == realm.value && u.isActive
  {
    var query := if baseQuery.None? then ActiveInRealm(db, realm.value) else baseQuery.value;
    CachedFetch(seq(|emails|, i requires 0 <= i < |emails| => Lower(emails[i])), query)
  }

  /** `bulk_get_users`: one call of the engine on that request. */
  function BulkGetUsers(engine: Engine, db: seq<UserProfile>, emails: seq<string>, realm: Option<RealmId>,
                        baseQuery: Option<seq<UserProfile>>): map<string, UserProfile>
    requires baseQuery.Some? || realm.Some?
  {
    engine(BulkFetchRequest(db, emails, realm, baseQuery))
  }

  /** Lower-casing the keys before fetching loses nothing: the fetcher
      returns the same rows for the lower-cased keys as for the caller's. */
  lemma FetchIgnoresKeyCase(baseQuery: seq<UserProfile>, emails: seq<string>)
    ensures FetchUsersByEmail(baseQuery, BulkFetchRequest([], emails, None, Some(baseQuery)).keys)
         == FetchUsersByEmail(baseQuery, emails)
  {
    var keys := BulkFetchRequest([], emails, None, Some(baseQuery)).keys;
    forall i | 0 <= i < |emails| ensures Uppers(keys)[i] == Uppers(emails)[i] {
      UpperOfLower(emails[i]);
    }
    assert Uppers(keys) == Uppers(emails);
    assert keys == [] <==> emails == [];
  }

  /** The fetcher and the `id_fetcher` agree: a candidate is fetched for
      the request's keys exactly when its lower-cased email is one of the
      keys. Emails with no matching candidate are simply absent. */
  lemma FetchedRowsAreKeyed(db: seq<UserProfile>, emails: seq<string>, realm: Option<RealmId>,
                            baseQuery: Option<seq<UserProfile>>, u: UserProfile)
    requires baseQuery.Some? || realm.Some?
    ensures var c := BulkFetchRequest(db, emails, realm, baseQuery);
      u in c.Fetch(c.keys) <==> u in c.candidates && c.IdOf(u) in c.keys
  {
    var c := BulkFetchRequest(db, emails, realm, baseQuery);
    forall i | 0 <= i < |c.keys|
      ensures Upper(u.email) == Upper(c.keys[i]) <==> Lower(u.email) == c.keys[i]
    {
      UpperOfLower(emails[i]);
      LowerIdempotent(emails[i]);
      LowerEqualIffUpperEqual(u.email, emails[i]);
    }
  }

  /** Case-insensitivity: whatever the engine does, callers that differ only
      in the case of the emails get the same result. */
  lemma BulkGetUsersIgnoresCase(engine: Engine, db: seq<UserProfile>, emails: seq<string>,
                                others: seq<string>, realm: Option<RealmId>, baseQuery: Option<seq<UserProfile>>)
    requires baseQuery.Some? || realm.Some?
    requires |emails| == |others| && forall i :: 0 <= i < |emails| ==> Lower(emails[i]) == Lower(others[i])
    ensures BulkGetUsers(engine, db, emails, realm, baseQuery) == BulkGetUsers(engine, db, others, realm, baseQuery)
  {
    var c1 := BulkFetchRequest(db, emails, realm, baseQuery);
    var c2 := BulkFetchRequest(db, others, realm, baseQuery);
    assert c1.keys == c2.keys;
  }
}
