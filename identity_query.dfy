/**
 * The identity lookups of BaseSecurityManager:
 *
 *  - isIdentityVisible, the status test that hides deleted and blocked
 *    identities;
 *  - findShortIdentitiesByName / findShortIdentitiesByKey, which query the
 *    short-identity table in batches of at most 500 values;
 *  - createIdentitiesByPowerQuery, which assembles the JPQL text of the
 *    user search from the optional filters of a SearchIdentityParams.
 *
 * The query text is modelled as a sequence of fragments, one per piece the
 * source appends to its StringBuilder; Render gives each piece's text.
 * Running a query is modelled by Select, a filter over a table of rows.
 */
module IdentityQuery {
  import opened Common
  import opened FuzzyQuery
  import SecurityRoles

  // Identity status values (org.olat.core.id.Identity).
  const STATUS_PERMANENT: int := 1
  const STATUS_ACTIV: int := 2
  const STATUS_VISIBLE_LIMIT: int := 100
  const STATUS_LOGIN_DENIED: int := 101
  const STATUS_DELETED: int := 199

  datatype Identity = Identity(key: nat, name: string, status: Option<int>)

  /** isIdentityVisible: a null identity or a null status is not visible. */
  predicate IsIdentityVisible(identity: Option<Identity>)
  {
    identity.Some? && identity.value.status.Some? && identity.value.status.value < STATUS_VISIBLE_LIMIT
  }

  /** Visibility is decided by the status alone: the permanent and active
      states are visible, blocked and deleted identities are not. */
  lemma VisibilityByStatus(identity: Identity)
    ensures identity.status.None? ==> !IsIdentityVisible(Some(identity))
    ensures identity.status.Some? ==>
      (IsIdentityVisible(Some(identity)) <==> identity.status.value < STATUS_VISIBLE_LIMIT)
    ensures identity.status == Some(STATUS_PERMANENT) || identity.status == Some(STATUS_ACTIV)
      ==> IsIdentityVisible(Some(identity))
    ensures identity.status == Some(STATUS_LOGIN_DENIED) || identity.status == Some(STATUS_DELETED)
      ==> !IsIdentityVisible(Some(identity))
    ensures !IsIdentityVisible(None)
  {
  }

  // ---------------------------------------------------------------------
  // Batched lookups

  /** The number of values bound to one "in (:names)" parameter. */
  const Batch: nat := 500

  datatype ShortIdentity = ShortIdentity(key: nat, name: string)

  /** The rows of `table` whose column value (`column`) is in `values`, in
      table order: one run of "select ident from bidentityshort as ident
      where ident.<column> in (:values)". */
  function Select<K(==)>(table: seq<ShortIdentity>, column: ShortIdentity -> K, values: seq<K>): (r: seq<ShortIdentity>)
    ensures forall x :: x in r <==> x in table && column(x) in values
  {
    if table == [] then []
    else
      var rest := Select(table[1..], column, values);
      assert forall x :: x in table <==> x == table[0] || x in table[1..];
      if column(table[0]) in values then [table[0]] + rest else rest
  }

  /** The batches one after the other. */
  function Concat<T>(batches: seq<seq<T>>): seq<T>
  {
    if batches == [] then [] else Concat(batches[..|batches| - 1]) + batches[|batches| - 1]
  }

  /** The rows returned by running the query once per batch, in batch order. */
  function SelectAll<K(==)>(table: seq<ShortIdentity>, column: ShortIdentity -> K, batches: seq<seq<K>>): seq<ShortIdentity>
  {
    if batches == [] then []
    else SelectAll(table, column, batches[..|batches| - 1]) + Select(table, column, batches[|batches| - 1])
  }

  /** Running the query batch by batch finds exactly the rows whose value
      occurs in one of the batches. */
  lemma {:induction false} SelectAllFindsAll<K>(table: seq<ShortIdentity>, column: ShortIdentity -> K,
                                                     batches: seq<seq<K>>, x: ShortIdentity)
    ensures x in SelectAll(table, column, batches) <==> x in table && column(x) in Concat(batches)
  {
    if batches != [] {
      var init := batches[..|batches| - 1];
      SelectAllFindsAll(table, column, init, x);
    }
  }

  /** The do-while loop shared by findShortIdentitiesByName and
      findShortIdentitiesByKey: `values` is cut into consecutive batches of
      500 (the last one possibly shorter) and the query runs once per batch.
      `queries` lists the values bound on each run. */
  method LoadInBatches<K(==)>(values: seq<K>, table: seq<ShortIdentity>, column: ShortIdentity -> K)
    returns (found: seq<ShortIdentity>, queries: seq<seq<K>>)
    requires |values| > 0
    ensures Concat(queries) == values
    ensures forall i :: 0 <= i < |queries| ==> 0 < |queries[i]| <= Batch
    ensures forall i :: 0 <= i < |queries| - 1 ==> |queries[i]| == Batch
    ensures |queries| == (|values| + Batch - 1) / Batch
    ensures found == SelectAll(table, column, queries)
  {
    var count := 0;
    found := [];
    queries := [];
    // do { ... } while (count < values.size()): the body runs at least once,
    // which the loop below also does because values is not empty.
    while count < |values|
      invariant count == Batch * |queries|
      invariant |queries| > 0 ==> count < |values| + Batch
      invariant Concat(queries) == values[..if count < |values| then count else |values|]
      invariant forall i :: 0 <= i < |queries| ==> 0 < |queries[i]| <= Batch
      invariant forall i :: 0 <= i < |queries| - 1 ==> |queries[i]| == Batch
      invariant count <= |values| ==> forall i :: 0 <= i < |queries| ==> |queries[i]| == Batch
      invariant found == SelectAll(table, column, queries)
    {
      var toIndex := if count + Batch < |values| then count + Batch else |values|;
      var toLoad := values[count..toIndex];
      var rows := Select(table, column, toLoad);
      found := found + rows;
      assert values[..toIndex] == values[..count] + toLoad;
      queries := queries + [toLoad];
      assert queries[..|queries| - 1] == queries[..|queries| - 1];
      count := count + Batch;
    }
    BatchCount(|values|, |queries|);
  }

  /** k batches of 500 cover n values exactly when k is n / 500 rounded up. */
  lemma BatchCount(n: nat, k: nat)
    requires n > 0
    requires Batch * k >= n && Batch * k < n + Batch
    ensures k == (n + Batch - 1) / Batch
  {
    var q := (n + Batch - 1) / Batch;
    var r := (n + Batch - 1) % Batch;
    assert Batch * q + r == n + Batch - 1;
  }

  /** findShortIdentitiesByName: a null or empty collection gives the empty
      list without a query. */
  method FindShortIdentitiesByName(identityNames: Option<seq<string>>, table: seq<ShortIdentity>)
    returns (found: seq<ShortIdentity>, queries: seq<seq<string>>)
    ensures identityNames.None? || identityNames.value == [] ==> found == [] && queries == []
    ensures identityNames.Some? ==> Concat(queries) == identityNames.value
    ensures forall i :: 0 <= i < |queries| ==> 0 < |queries[i]| <= Batch
    ensures forall x :: x in found <==>
      x in table && identityNames.Some? && x.name in identityNames.value
  {
    if identityNames.None? || |identityNames.value| == 0 {
      return [], [];
    }
    found, queries := LoadInBatches(identityNames.value, table, (x: ShortIdentity) => x.name);
    forall x ensures x in found <==> x in table && x.name in identityNames.value {
      SelectAllFindsAll(table, (x: ShortIdentity) => x.name, queries, x);
    }
  }

  /** findShortIdentitiesByKey: the same batching over identity keys. */
  method FindShortIdentitiesByKey(identityKeys: Option<seq<nat>>, table: seq<ShortIdentity>)
    returns (found: seq<ShortIdentity>, queries: seq<seq<nat>>)
    ensures identityKeys.None? || identityKeys.value == [] ==> found == [] && queries == []
    ensures identityKeys.Some? ==> Concat(queries) == identityKeys.value
    ensures forall i :: 0 <= i < |queries| ==> 0 < |queries[i]| <= Batch
    ensures forall x :: x in found <==>
      x in table && identityKeys.Some? && x.key in identityKeys.value
  {
    if identityKeys.None? || |identityKeys.value| == 0 {
      return [], [];
    }
    found, queries := LoadInBatches(identityKeys.value, table, (x: ShortIdentity) => x.key);
    forall x ensures x in found <==> x in table && x.key in identityKeys.value {
      SelectAllFindsAll(table, (x: ShortIdentity) => x.key, queries, x);
    }
  }

  // ---------------------------------------------------------------------
  // The power search

  /** The database the query is built for (DB.isOracle / DB.isMySQL). */
  datatype Database = Database(isOracle: bool, isMySQL: bool)

  /** SearchIdentityParams; dates are instants as integers, a null field is
      None. */
  datatype SearchIdentityParams = SearchIdentityParams(
    login: Option<string>,
    userProperties: Option<map<string, string>>,
    userPropertiesAsIntersectionSearch: bool,
    roles: Option<seq<SecurityRoles.OrganisationRole>>,
    authProviders: Option<seq<Option<string>>>,
    createdAfter: Option<int>,
    createdBefore: Option<int>,
    userLoginAfter: Option<int>,
    userLoginBefore: Option<int>,
    status: Option<int>,
    identityKeys: Option<seq<nat>>,
    managed: Option<bool>)

  /** The pieces createIdentitiesByPowerQuery appends to its query text. */
  datatype Fragment =
    | SelectCount | SelectDistinct
    | AuthJoin | RolesJoin
    | Where
    | OpenUserPart | CloseUserPart
    | OpenEmails | CloseEmails
    | And | Or
    | LoginLike(lower: bool, escape: bool)
    | PropertyLike(key: string, lower: bool, escape: bool)
    | KeysIn
    | ExternalIdNotNull | ExternalIdNull
    | OpenAuth | AuthIsNull | AuthProviderIs(index: nat) | CloseAuth
    | CreatedAfter | CreatedBefore | LastLoginAfter | LastLoginBefore
    | StatusBelow | StatusEquals

  /** The text of each piece. */
  function Render(f: Fragment): string
  {
    match f
    case SelectCount =>
      "select count(distinct ident.key) from org.olat.core.id.Identity as ident  inner join ident.user as user "
    case SelectDistinct =>
      "select distinct ident from org.olat.core.id.Identity as ident  inner join fetch ident.user as user "
    case AuthJoin =>
      " left join org.olat.basesecurity.AuthenticationImpl as auth on (auth.identity.key=ident.key)"
    case RolesJoin =>
      " inner join bgroupmember as membership on (membership.identity.key=ident.key and membership.role in (:roles))"
    case Where => " where "
    case OpenUserPart => " ( "
    case CloseUserPart => " ) "
    case OpenEmails => "("
    case CloseEmails => ")"
    case And => " and "
    case Or => " or "
    case LoginLike(lower, escape) =>
      if escape then " lower(ident.name) like :login ESCAPE '\\'"
      else if lower then " lower(ident.name) like :login"
      else " ident.name like :login"
    case PropertyLike(key, lower, escape) =>
      (if lower then " lower(user." + key + ") like :" + key + "_value "
       else " user." + key + " like :" + key + "_value ")
      + (if escape then " escape '\\'" else "")
    case KeysIn => "ident.key in (:identityKeys)"
    case ExternalIdNotNull => "ident.externalId is not null"
    case ExternalIdNull => "ident.externalId is null"
    case OpenAuth => " ("
    case AuthIsNull => " auth is null "
    case AuthProviderIs(i) => " auth.provider=:authProvider_" + NatToString(i)
    case CloseAuth => ") "
    case CreatedAfter => " ident.creationDate >= :createdAfter "
    case CreatedBefore => " ident.creationDate <= :createdBefore "
    case LastLoginAfter => " ident.lastLogin >= :lastloginAfter "
    case LastLoginBefore => " ident.lastLogin <= :lastloginBefore "
    case StatusBelow => " ident.status < :status "
    case StatusEquals => " ident.status = :status "
  }

  /** Decimal digits of a natural number. */
  function NatToString(n: nat): string
  {
    if n < 10 then [('0' as int + n) as char]
    else NatToString(n / 10) + [('0' as int + n % 10) as char]
  }

  predicate HasLogin(p: SearchIdentityParams) { p.login.Some? }

  predicate HasUserProperties(p: SearchIdentityParams)
  {
    p.userProperties.Some? && |p.userProperties.value| > 0
  }

  predicate HasIdentityKeys(p: SearchIdentityParams)
  {
    p.identityKeys.Some? && |p.identityKeys.value| > 0
  }

  predicate HasAuthProviders(p: SearchIdentityParams)
  {
    p.authProviders.Some? && |p.authProviders.value| > 0
  }

  predicate HasRoles(p: SearchIdentityParams)
  {
    p.roles.Some? && |p.roles.value| > 0
  }

  /** The guard of the where clause. The last-login dates are not part of it. */
  predicate HasWhere(p: SearchIdentityParams)
  {
    HasLogin(p) || HasUserProperties(p) || HasIdentityKeys(p)
    || p.createdAfter.Some? || p.createdBefore.Some?
    || HasAuthProviders(p) || p.status.Some? || p.managed.Some?
  }

  /** The iteration order of the user-property map: every key once. A
      HashMap's order depends on hash codes, so the model takes it as input. */
  predicate IsPropertyOrder(p: SearchIdentityParams, order: seq<string>)
  {
    Distinct(order)
    && (if p.userProperties.Some? then Elements(order) == p.userProperties.value.Keys else order == [])
  }

  /** A property of this name is searched as an e-mail field. */
  predicate IsEmailKey(key: string)
  {
    ContainsSubstring(LowerAscii(key), "email")
  }

  /** The keys of `order` that are (email) or are not (!email) e-mail keys,
      in order. */
  function KeysOfKind(order: seq<string>, email: bool): seq<string>
  {
    if order == [] then []
    else
      var init := KeysOfKind(order[..|order| - 1], email);
      var last := order[|order| - 1];
      if IsEmailKey(last) == email then init + [last] else init
  }

  /** Every key goes to exactly one of the two groups. */
  lemma {:induction false} KeysOfKindSplits(order: seq<string>, email: bool, k: string)
    ensures k in KeysOfKind(order, email) <==> k in order && IsEmailKey(k) == email
  {
    if order != [] {
      KeysOfKindSplits(order[..|order| - 1], email, k);
      assert order == order[..|order| - 1] + [order[|order| - 1]];
    }
  }

  function LoginFragment(fuzzyLogin: string, db: Database): Fragment
  {
    if '_' in fuzzyLogin && db.isOracle then LoginLike(true, true)
    else if db.isMySQL then LoginLike(false, false)
    else LoginLike(true, false)
  }

  function PropertyFragment(key: string, db: Database): Fragment
  {
    PropertyLike(key, !db.isMySQL, db.isOracle)
  }

  /** checkIntersectionInUserProperties: " and " for an intersection search,
      " or " otherwise. */
  function Separator(intersection: bool): Fragment
  {
    if intersection then And else Or
  }

  /** The e-mail property clauses, separated by " or ". */
  function EmailAlternatives(keys: seq<string>, db: Database): seq<Fragment>
  {
    if keys == [] then []
    else
      var init := keys[..|keys| - 1];
      EmailAlternatives(init, db) + (if init != [] then [Or] else [])
      + [PropertyFragment(keys[|keys| - 1], db)]
  }

  /** The e-mail group: preceded by a separator when a clause came before,
      wrapped in parentheses when it has more than one clause. */
  function EmailPart(keys: seq<string>, needsJoin: bool, intersection: bool, db: Database): seq<Fragment>
  {
    if keys == [] then []
    else
      (if needsJoin then [Separator(intersection)] else [])
      + (if |keys| > 1 then [OpenEmails] else [])
      + EmailAlternatives(keys, db)
      + (if |keys| > 1 then [CloseEmails] else [])
  }

  /** The other property clauses, each preceded by a separator unless it is
      the very first clause of the login-and-properties part. */
  function OtherPart(keys: seq<string>, needsJoin: bool, intersection: bool, db: Database): seq<Fragment>
  {
    if keys == [] then []
    else
      var init := keys[..|keys| - 1];
      OtherPart(init, needsJoin, intersection, db)
      + (if needsJoin || init != [] then [Separator(intersection)] else [])
      + [PropertyFragment(keys[|keys| - 1], db)]
  }

  /** Login and user properties, one parenthesised element when both are
      present. */
  function UserPart(p: SearchIdentityParams, db: Database, order: seq<string>): seq<Fragment>
  {
    UserBracket(p, OpenUserPart) + LoginPart(p, db) + PropertiesPart(p, db, order) + UserBracket(p, CloseUserPart)
  }

  /** " ( " and " ) " around the part when it has both a login and properties. */
  function UserBracket(p: SearchIdentityParams, bracket: Fragment): seq<Fragment>
  {
    if HasLogin(p) && HasUserProperties(p) then [bracket] else []
  }

  function LoginPart(p: SearchIdentityParams, db: Database): seq<Fragment>
  {
    if HasLogin(p) then [LoginFragment(MakeFuzzyQueryString(p.login.value), db)] else []
  }

  /** The e-mail group, then the other properties. */
  function PropertiesPart(p: SearchIdentityParams, db: Database, order: seq<string>): seq<Fragment>
  {
    var emails := KeysOfKind(order, true);
    if HasUserProperties(p) then
      EmailPart(emails, HasLogin(p), p.userPropertiesAsIntersectionSearch, db)
      + OtherPart(KeysOfKind(order, false), HasLogin(p) || emails != [],
                  p.userPropertiesAsIntersectionSearch, db)
    else []
  }

  /** One authentication-provider alternative: "auth is null" for a null
      provider, a bound provider name otherwise. */
  function AuthTerm(providers: seq<Option<string>>, i: nat): Fragment
    requires i < |providers|
  {
    if providers[i].None? then AuthIsNull else AuthProviderIs(i)
  }

  /** The first `k` alternatives, each followed by " or " unless it is the
      last provider. */
  function AuthTerms(providers: seq<Option<string>>, k: nat): seq<Fragment>
    requires k <= |providers|
  {
    if k == 0 then []
    else AuthTerms(providers, k - 1) + [AuthTerm(providers, k - 1)]
         + (if k - 1 < |providers| - 1 then [Or] else [])
  }

  /** The filters joined with " and ", in the order the source appends them. */
  function Clauses(p: SearchIdentityParams): seq<seq<Fragment>>
  {
    var keys := AddIf([], HasIdentityKeys(p), [KeysIn]);
    var managed := AddIf(keys, p.managed.Some?, [ManagedFragment(p)]);
    var auth := AddIf(managed, HasAuthProviders(p), AuthGroup(p));
    var after := AddIf(auth, p.createdAfter.Some?, [CreatedAfter]);
    var before := AddIf(after, p.createdBefore.Some?, [CreatedBefore]);
    var loginAfter := AddIf(before, p.userLoginAfter.Some?, [LastLoginAfter]);
    var loginBefore := AddIf(loginAfter, p.userLoginBefore.Some?, [LastLoginBefore]);
    AddIf(loginBefore, p.status.Some?, [StatusFragment(p)])
  }

  /** `clauses`, with `c` added at the end when `cond` holds. */
  function AddIf(clauses: seq<seq<Fragment>>, cond: bool, c: seq<Fragment>): seq<seq<Fragment>>
  {
    if cond then clauses + [c] else clauses
  }

  function ManagedFragment(p: SearchIdentityParams): Fragment
  {
    if p.managed == Some(true) then ExternalIdNotNull else ExternalIdNull
  }

  /** The authentication-provider alternatives in parentheses. */
  function AuthGroup(p: SearchIdentityParams): seq<Fragment>
  {
    var providers := if p.authProviders.Some? then p.authProviders.value else [];
    [OpenAuth] + AuthTerms(providers, |providers|) + [CloseAuth]
  }

  function StatusFragment(p: SearchIdentityParams): Fragment
  {
    if p.status == Some(STATUS_VISIBLE_LIMIT) then StatusBelow else StatusEquals
  }

  /** The clauses appended through checkAnd: each one is preceded by " and "
      when anything came before it in the where clause. */
  function AndChain(needsAnd: bool, clauses: seq<seq<Fragment>>): seq<Fragment>
  {
    if clauses == [] then []
    else
      var init := clauses[..|clauses| - 1];
      AndChain(needsAnd, init) + (if needsAnd || init != [] then [And] else []) + clauses[|clauses| - 1]
  }

  /** The query text of createIdentitiesByPowerQuery. */
  function PowerQuery(p: SearchIdentityParams, db: Database, order: seq<string>, count: bool): seq<Fragment>
  {
    [if count then SelectCount else SelectDistinct]
    + (if HasAuthProviders(p) then [AuthJoin] else [])
    + (if HasRoles(p) then [RolesJoin] else [])
    + (if HasWhere(p)
       then [Where] + UserPart(p, db, order) + AndChain(HasLogin(p) || HasUserProperties(p), Clauses(p))
       else [])
  }

  // ---------------------------------------------------------------------
  // What the assembled query looks like

  /** The clauses separated by single " and " pieces. */
  function JoinedByAnd(clauses: seq<seq<Fragment>>): seq<Fragment>
  {
    if clauses == [] then []
    else if |clauses| == 1 then clauses[0]
    else clauses[0] + [And] + JoinedByAnd(clauses[1..])
  }

  lemma {:induction false} JoinedByAndSnoc(clauses: seq<seq<Fragment>>, c: seq<Fragment>)
    ensures JoinedByAnd(clauses + [c]) == if clauses == [] then c else JoinedByAnd(clauses) + [And] + c
  {
    if |clauses| > 1 {
      assert (clauses + [c])[1..] == clauses[1..] + [c];
      JoinedByAndSnoc(clauses[1..], c);
    } else if |clauses| == 1 {
      assert (clauses + [c])[1..] == [c];
    }
  }

  /** After the login-and-properties part, the filters are exactly the
      clauses with one " and " between each two of them, and one " and "
      before the first when the login-and-properties part is not empty. */
  lemma {:induction false} AndChainIsJoin(needsAnd: bool, clauses: seq<seq<Fragment>>)
    ensures AndChain(needsAnd, clauses) ==
      (if needsAnd && clauses != [] then [And] else []) + JoinedByAnd(clauses)
  {
    if clauses != [] {
      var init := clauses[..|clauses| - 1];
      var last := clauses[|clauses| - 1];
      AndChainIsJoin(needsAnd, init);
      assert clauses == init + [last];
      JoinedByAndSnoc(init, last);
    }
  }

  lemma {:induction false} EmailAlternativesPieces(keys: seq<string>, db: Database, f: Fragment)
    requires f in EmailAlternatives(keys, db)
    ensures f == Or || (f.PropertyLike? && f.key in keys)
  {
    var init := keys[..|keys| - 1];
    if f in EmailAlternatives(init, db) {
      EmailAlternativesPieces(init, db, f);
    }
  }

  /** The other user properties are joined by " and " for an intersection
      search and by " or " otherwise; nothing else comes between them. */
  lemma {:induction false} OtherPartPieces(keys: seq<string>, needsJoin: bool, intersection: bool,
                                           db: Database, f: Fragment)
    requires f in OtherPart(keys, needsJoin, intersection, db)
    ensures f == Separator(intersection) || (f.PropertyLike? && f.key in keys)
  {
    var init := keys[..|keys| - 1];
    if f in OtherPart(init, needsJoin, intersection, db) {
      OtherPartPieces(init, needsJoin, intersection, db, f);
    }
  }

  lemma {:induction false} AuthTermsPieces(providers: seq<Option<string>>, k: nat, f: Fragment)
    requires k <= |providers| && f in AuthTerms(providers, k)
    ensures f == Or || f == AuthIsNull || f.AuthProviderIs?
  {
    if f in AuthTerms(providers, k - 1) {
      AuthTermsPieces(providers, k - 1, f);
    }
  }

  /** The login-and-properties part is made of login and property clauses,
      parentheses and separators only. */
  lemma UserPartPieces(p: SearchIdentityParams, db: Database, order: seq<string>, f: Fragment)
    requires f in UserPart(p, db, order)
    ensures f in [OpenUserPart, CloseUserPart, OpenEmails, CloseEmails, And, Or]
      || f.LoginLike? || f.PropertyLike?
  {
    var emails := KeysOfKind(order, true);
    var intersection := p.userPropertiesAsIntersectionSearch;
    if HasUserProperties(p) {
      var others := KeysOfKind(order, false);
      if f in EmailPart(emails, HasLogin(p), intersection, db) && f in EmailAlternatives(emails, db) {
        EmailAlternativesPieces(emails, db, f);
      }
      if f in OtherPart(others, HasLogin(p) || emails != [], intersection, db) {
        OtherPartPieces(others, HasLogin(p) || emails != [], intersection, db, f);
      }
    }
  }

  /** No filter clause holds the where keyword, an " and " or a status
      comparison other than the one for the status filter. */
  lemma ClausePieces(p: SearchIdentityParams, c: seq<Fragment>, f: Fragment)
    requires c in Clauses(p) && f in c
    ensures f != Where && f != And
    ensures f.StatusBelow? ==> p.status == Some(STATUS_VISIBLE_LIMIT)
    ensures f.StatusEquals? ==> p.status.Some? && p.status.value != STATUS_VISIBLE_LIMIT
  {
    ClauseShapes(p, c);
    if HasAuthProviders(p) && c == AuthGroup(p) {
      var ps := p.authProviders.value;
      if f in AuthTerms(ps, |ps|) {
        AuthTermsPieces(ps, |ps|, f);
      }
    }
  }

  lemma AddIfMember(clauses: seq<seq<Fragment>>, cond: bool, c: seq<Fragment>, x: seq<Fragment>)
    requires x in AddIf(clauses, cond, c)
    ensures x in clauses || (cond && x == c)
  {
  }

  /** Every filter clause is one of the eight the source can append. */
  lemma ClauseShapes(p: SearchIdentityParams, c: seq<Fragment>)
    requires c in Clauses(p)
    ensures || c == [KeysIn] || c == [ManagedFragment(p)] || c == [CreatedAfter] || c == [CreatedBefore]
            || c == [LastLoginAfter] || c == [LastLoginBefore]
            || (HasAuthProviders(p) && c == AuthGroup(p))
            || (p.status.Some? && c == [StatusFragment(p)])
  {
    var keys := AddIf([], HasIdentityKeys(p), [KeysIn]);
    var managed := AddIf(keys, p.managed.Some?, [ManagedFragment(p)]);
    var auth := AddIf(managed, HasAuthProviders(p), AuthGroup(p));
    var after := AddIf(auth, p.createdAfter.Some?, [CreatedAfter]);
    var before := AddIf(after, p.createdBefore.Some?, [CreatedBefore]);
    var loginAfter := AddIf(before, p.userLoginAfter.Some?, [LastLoginAfter]);
    var loginBefore := AddIf(loginAfter, p.userLoginBefore.Some?, [LastLoginBefore]);
    assert Clauses(p) == AddIf(loginBefore, p.status.Some?, [StatusFragment(p)]);
    AddIfMember(loginBefore, p.status.Some?, [StatusFragment(p)], c);
    if c in loginBefore {
      AddIfMember(loginAfter, p.userLoginBefore.Some?, [LastLoginBefore], c);
      if c in loginAfter {
        AddIfMember(before, p.userLoginAfter.Some?, [LastLoginAfter], c);
        if c in before {
          AddIfMember(after, p.createdBefore.Some?, [CreatedBefore], c);
          if c in after {
            AddIfMember(auth, p.createdAfter.Some?, [CreatedAfter], c);
            if c in auth {
              AddIfMember(managed, HasAuthProviders(p), AuthGroup(p), c);
              if c in managed {
                AddIfMember(keys, p.managed.Some?, [ManagedFragment(p)], c);
                if c in keys {
                  AddIfMember([], HasIdentityKeys(p), [KeysIn], c);
                }
              }
            }
          }
        }
      }
    }
  }

  lemma {:induction false} AndChainPieces(needsAnd: bool, clauses: seq<seq<Fragment>>, f: Fragment)
    requires f in AndChain(needsAnd, clauses)
    ensures f == And || exists c :: c in clauses && f in c
  {
    var init := clauses[..|clauses| - 1];
    var last := clauses[|clauses| - 1];
    if f in AndChain(needsAnd, init) {
      AndChainPieces(needsAnd, init, f);
    } else if f in last {
      assert last in clauses;
    }
  }

  /** " where " is emitted exactly when one of the guarding filters is set. */
  lemma WhereIffFilters(p: SearchIdentityParams, db: Database, order: seq<string>, count: bool)
    ensures Where in PowerQuery(p, db, order, count) <==> HasWhere(p)
  {
    var head := [if count then SelectCount else SelectDistinct]
                + (if HasAuthProviders(p) then [AuthJoin] else [])
                + (if HasRoles(p) then [RolesJoin] else []);
    assert Where !in head;
    if HasWhere(p) {
      var whereClause := [Where] + UserPart(p, db, order) + AndChain(HasLogin(p) || HasUserProperties(p), Clauses(p));
      assert PowerQuery(p, db, order, count) == head + whereClause;
      assert whereClause[0] == Where;
      assert (head + whereClause)[|head|] == Where;
    } else {
      assert PowerQuery(p, db, order, count) == head;
    }
  }

  /** The login-date filters only reach the query when another filter opens
      the where clause. */
  lemma LoginDatesNeedAnotherFilter(p: SearchIdentityParams, db: Database, order: seq<string>, count: bool)
    requires !HasWhere(p)
    ensures LastLoginAfter !in PowerQuery(p, db, order, count)
    ensures LastLoginBefore !in PowerQuery(p, db, order, count)
  {
  }

  /** The status filter is "<" exactly for STATUS_VISIBLE_LIMIT and "="
      for any other status, and is absent without a status. */
  lemma StatusComparison(p: SearchIdentityParams, db: Database, order: seq<string>, count: bool)
    ensures StatusBelow in PowerQuery(p, db, order, count) <==> p.status == Some(STATUS_VISIBLE_LIMIT)
    ensures StatusEquals in PowerQuery(p, db, order, count) <==>
      (p.status.Some? && p.status.value != STATUS_VISIBLE_LIMIT)
  {
    StatusOnlyFromFilter(p, db, order, count);
    if p.status.Some? {
      StatusPresentWhenSet(p, db, order, count);
    }
  }

  /** A status comparison in the query comes from the status filter. */
  lemma StatusOnlyFromFilter(p: SearchIdentityParams, db: Database, order: seq<string>, count: bool)
    ensures StatusBelow in PowerQuery(p, db, order, count) ==> p.status == Some(STATUS_VISIBLE_LIMIT)
    ensures StatusEquals in PowerQuery(p, db, order, count) ==>
      p.status.Some? && p.status.value != STATUS_VISIBLE_LIMIT
  {
    if StatusBelow in PowerQuery(p, db, order, count) {
      QueryPieces(p, db, order, count, StatusBelow);
      StatusFromClause(p, db, order, StatusBelow);
    }
    if StatusEquals in PowerQuery(p, db, order, count) {
      QueryPieces(p, db, order, count, StatusEquals);
      StatusFromClause(p, db, order, StatusEquals);
    }
  }

  lemma StatusFromClause(p: SearchIdentityParams, db: Database, order: seq<string>, f: Fragment)
    requires f in UserPart(p, db, order) || f in AndChain(HasLogin(p) || HasUserProperties(p), Clauses(p))
    ensures f.StatusBelow? ==> p.status == Some(STATUS_VISIBLE_LIMIT)
    ensures f.StatusEquals? ==> p.status.Some? && p.status.value != STATUS_VISIBLE_LIMIT
  {
    if f in UserPart(p, db, order) {
      UserPartPieces(p, db, order, f);
    } else {
      ChainStatus(p, HasLogin(p) || HasUserProperties(p), f);
    }
  }

  lemma ChainStatus(p: SearchIdentityParams, needsAnd: bool, f: Fragment)
    requires f in AndChain(needsAnd, Clauses(p))
    ensures f.StatusBelow? ==> p.status == Some(STATUS_VISIBLE_LIMIT)
    ensures f.StatusEquals? ==> p.status.Some? && p.status.value != STATUS_VISIBLE_LIMIT
  {
    AndChainPieces(needsAnd, Clauses(p), f);
    if f != And {
      var c :| c in Clauses(p) && f in c;
      ClausePieces(p, c, f);
    }
  }

  /** Every piece of the query is a head piece, the where keyword, or comes
      from the login-and-properties part or the filter chain. */
  lemma QueryPieces(p: SearchIdentityParams, db: Database, order: seq<string>, count: bool, f: Fragment)
    requires f in PowerQuery(p, db, order, count)
    ensures f in [SelectCount, SelectDistinct, AuthJoin, RolesJoin, Where]
      || (HasWhere(p) && (f in UserPart(p, db, order)
                          || f in AndChain(HasLogin(p) || HasUserProperties(p), Clauses(p))))
  {
  }

  /** A set status always reaches the query, as the last clause. */
  lemma StatusPresentWhenSet(p: SearchIdentityParams, db: Database, order: seq<string>, count: bool)
    requires p.status.Some?
    ensures StatusFragment(p) in PowerQuery(p, db, order, count)
  {
    var cs := Clauses(p);
    assert cs[|cs| - 1] == [StatusFragment(p)];
    assert StatusFragment(p) in AndChain(HasLogin(p) || HasUserProperties(p), cs);
  }

  // ---------------------------------------------------------------------
  // The builder

  lemma AppendAssociates(a: seq<Fragment>, b: seq<Fragment>, c: seq<Fragment>)
    ensures a + (b + c) == a + b + c
  {
  }

  /** Appending one more clause through checkAnd. */
  lemma ClauseStep(sb: seq<Fragment>, needsAnd: bool, done: seq<seq<Fragment>>, c: seq<Fragment>)
    ensures sb + AndChain(needsAnd, done + [c])
         == sb + AndChain(needsAnd, done) + (if needsAnd || done != [] then [And] else []) + c
  {
    assert (done + [c])[..|done|] == done;
    var a := AndChain(needsAnd, done);
    var sep: seq<Fragment> := if needsAnd || done != [] then [And] else [];
    AppendAssociates(sb, a + sep, c);
    AppendAssociates(sb, a, sep);
  }

  /** checkAnd: appends " and " when needed; from then on an " and " is
      always needed. */
  method CheckAnd(sb: seq<Fragment>, needsAnd: bool) returns (sb': seq<Fragment>, r: bool)
    ensures r
    ensures sb' == sb + (if needsAnd then [And] else [])
  {
    sb' := if needsAnd then sb + [And] else sb;
    r := true;
  }

  /** checkIntersectionInUserProperties: appends the separator when needed. */
  method CheckIntersectionInUserProperties(sb: seq<Fragment>, needsJoin: bool, intersection: bool)
    returns (sb': seq<Fragment>, r: bool)
    ensures r
    ensures sb' == sb + (if needsJoin then [Separator(intersection)] else [])
  {
    sb' := sb;
    if needsJoin {
      if intersection {
        sb' := sb' + [And];
      } else {
        sb' := sb' + [Or];
      }
    }
    r := true;
  }

  /** The loop splitting the user properties into e-mail and other keys. */
  method SplitProperties(order: seq<string>) returns (emails: seq<string>, others: seq<string>)
    ensures emails == KeysOfKind(order, true)
    ensures others == KeysOfKind(order, false)
  {
    emails, others := [], [];
    var i := 0;
    while i < |order|
      invariant 0 <= i <= |order|
      invariant emails == KeysOfKind(order[..i], true)
      invariant others == KeysOfKind(order[..i], false)
    {
      assert order[..i + 1][..i] == order[..i];
      if IsEmailKey(order[i]) {
        emails := emails + [order[i]];
      } else {
        others := others + [order[i]];
      }
      i := i + 1;
    }
    assert order[..i] == order;
  }

  /** The e-mail group of the user-property part. */
  method AppendEmailProperties(sb: seq<Fragment>, emails: seq<string>, needsJoin: bool,
                               intersection: bool, db: Database)
    returns (sb': seq<Fragment>, needsJoin': bool)
    ensures sb' == sb + EmailPart(emails, needsJoin, intersection, db)
    ensures needsJoin' == (needsJoin || emails != [])
  {
    sb', needsJoin' := sb, needsJoin;
    if emails != [] {
      sb', needsJoin' := CheckIntersectionInUserProperties(sb', needsJoin', intersection);
      var moreThanOne := |emails| > 1;
      if moreThanOne {
        sb' := sb' + [OpenEmails];
      }
      ghost var start := sb';
      var needsOr := false;
      var i := 0;
      while i < |emails|
        invariant 0 <= i <= |emails|
        invariant needsOr == (i > 0)
        invariant sb' == start + EmailAlternatives(emails[..i], db)
      {
        assert emails[..i + 1][..i] == emails[..i];
        if needsOr {
          sb' := sb' + [Or];
        }
        sb' := sb' + [PropertyFragment(emails[i], db)];
        needsOr := true;
        i := i + 1;
      }
      assert emails[..i] == emails;
      if moreThanOne {
        sb' := sb' + [CloseEmails];
      }
    }
  }

  /** The other properties of the user-property part. */
  method AppendOtherProperties(sb: seq<Fragment>, others: seq<string>, needsJoin: bool,
                               intersection: bool, db: Database)
    returns (sb': seq<Fragment>)
    ensures sb' == sb + OtherPart(others, needsJoin, intersection, db)
  {
    sb' := sb;
    var join := needsJoin;
    var i := 0;
    while i < |others|
      invariant 0 <= i <= |others|
      invariant join == (needsJoin || i > 0)
      invariant sb' == sb + OtherPart(others[..i], needsJoin, intersection, db)
    {
      assert others[..i + 1][..i] == others[..i];
      sb', join := CheckIntersectionInUserProperties(sb', join, intersection);
      sb' := sb' + [PropertyFragment(others[i], db)];
      i := i + 1;
    }
    assert others[..i] == others;
  }

  /** The authentication-provider group's alternatives. */
  method AppendAuthProviders(sb: seq<Fragment>, providers: seq<Option<string>>) returns (sb': seq<Fragment>)
    ensures sb' == sb + AuthTerms(providers, |providers|)
  {
    sb' := sb;
    var i := 0;
    while i < |providers|
      invariant 0 <= i <= |providers|
      invariant sb' == sb + AuthTerms(providers, i)
    {
      if providers[i].None? {
        sb' := sb' + [AuthIsNull];
      } else {
        sb' := sb' + [AuthProviderIs(i)];
      }
      if i < |providers| - 1 {
        sb' := sb' + [Or];
      }
      i := i + 1;
    }
  }

  /** The login and user-property part of the where clause. */
  method AppendUserPart(sb: seq<Fragment>, p: SearchIdentityParams, db: Database, order: seq<string>)
    returns (sb': seq<Fragment>, needsAnd: bool)
    ensures sb' == sb + UserPart(p, db, order)
    ensures needsAnd == (HasLogin(p) || HasUserProperties(p))
  {
    sb' := sb;
    needsAnd := false;
    var needsJoin := false;
    var hasProperties := p.userProperties.Some? && |p.userProperties.value| > 0;
    ghost var open, login, properties, close :=
      UserBracket(p, OpenUserPart), LoginPart(p, db), PropertiesPart(p, db, order), UserBracket(p, CloseUserPart);
    if p.login.Some? && hasProperties {
      sb' := sb' + [OpenUserPart];
    }
    assert sb' == sb + open;
    if p.login.Some? {
      var fuzzy := MakeFuzzyQueryString(p.login.value);
      if '_' in fuzzy && db.isOracle {
        sb' := sb' + [LoginLike(true, true)];
      } else if db.isMySQL {
        sb' := sb' + [LoginLike(false, false)];
      } else {
        sb' := sb' + [LoginLike(true, false)];
      }
      needsJoin := true;
      needsAnd := true;
    }
    assert sb' == sb + open + login;
    if hasProperties {
      ghost var before := sb';
      var emails, others := SplitProperties(order);
      sb', needsJoin := AppendEmailProperties(sb', emails, needsJoin, p.userPropertiesAsIntersectionSearch, db);
      sb' := AppendOtherProperties(sb', others, needsJoin, p.userPropertiesAsIntersectionSearch, db);
      AppendAssociates(before, EmailPart(emails, p.login.Some?, p.userPropertiesAsIntersectionSearch, db),
        OtherPart(others, p.login.Some? || emails != [], p.userPropertiesAsIntersectionSearch, db));
      needsAnd := true;
    }
    assert sb' == sb + open + login + properties;
    if p.login.Some? && hasProperties {
      sb' := sb' + [CloseUserPart];
    }
    assert sb' == sb + open + login + properties + close;
    AppendAssociates(sb, open + login + properties, close);
    AppendAssociates(sb, open + login, properties);
    AppendAssociates(sb, open, login);
  }

  /** One optional filter: when it is set, checkAnd and then the clause.
      `done` lists the clauses appended since `start`, the text before the
      first filter; `expected` is the clause as Clauses states it. */
  method AppendFilter(ghost start: seq<Fragment>, ghost needsAnd0: bool, ghost done: seq<seq<Fragment>>,
                      sb: seq<Fragment>, needsAnd: bool, isSet: bool, clause: seq<Fragment>,
                      ghost expected: seq<Fragment>)
    returns (sb': seq<Fragment>, needsAnd': bool, ghost done': seq<seq<Fragment>>)
    requires sb == start + AndChain(needsAnd0, done) && needsAnd == (needsAnd0 || done != [])
    requires isSet ==> clause == expected
    ensures done' == AddIf(done, isSet, expected)
    ensures sb' == start + AndChain(needsAnd0, done') && needsAnd' == (needsAnd0 || done' != [])
  {
    sb', needsAnd', done' := sb, needsAnd, done;
    if isSet {
      sb', needsAnd' := CheckAnd(sb', needsAnd');
      sb' := sb' + clause;
      ClauseStep(start, needsAnd0, done, clause);
      done' := done + [clause];
    }
  }

  /** The filters joined through checkAnd, in the order the source tests
      them. */
  method AppendAndClauses(sb: seq<Fragment>, p: SearchIdentityParams, needsAnd0: bool)
    returns (sb': seq<Fragment>)
    ensures sb' == sb + AndChain(needsAnd0, Clauses(p))
  {
    sb' := sb;
    var needsAnd := needsAnd0;
    ghost var done: seq<seq<Fragment>> := [];
    sb', needsAnd, done :=
      AppendFilter(sb, needsAnd0, done, sb', needsAnd, HasIdentityKeys(p), [KeysIn], [KeysIn]);
    ghost var d1 := done;
    var managed := if p.managed == Some(true) then ExternalIdNotNull else ExternalIdNull;
    sb', needsAnd, done :=
      AppendFilter(sb, needsAnd0, done, sb', needsAnd, p.managed.Some?, [managed], [ManagedFragment(p)]);
    ghost var d2 := done;
    var hasAuthProviders := HasAuthProviders(p);
    var authGroup := [];
    if hasAuthProviders {
      authGroup := AppendAuthProviders([OpenAuth], p.authProviders.value);
      authGroup := authGroup + [CloseAuth];
    }
    sb', needsAnd, done :=
      AppendFilter(sb, needsAnd0, done, sb', needsAnd, hasAuthProviders, authGroup, AuthGroup(p));
    ghost var d3 := done;
    sb', needsAnd, done :=
      AppendFilter(sb, needsAnd0, done, sb', needsAnd, p.createdAfter.Some?, [CreatedAfter], [CreatedAfter]);
    ghost var d4 := done;
    sb', needsAnd, done :=
      AppendFilter(sb, needsAnd0, done, sb', needsAnd, p.createdBefore.Some?, [CreatedBefore], [CreatedBefore]);
    ghost var d5 := done;
    sb', needsAnd, done :=
      AppendFilter(sb, needsAnd0, done, sb', needsAnd, p.userLoginAfter.Some?, [LastLoginAfter], [LastLoginAfter]);
    ghost var d6 := done;
    sb', needsAnd, done :=
      AppendFilter(sb, needsAnd0, done, sb', needsAnd, p.userLoginBefore.Some?, [LastLoginBefore], [LastLoginBefore]);
    ghost var d7 := done;
    var status := if p.status == Some(STATUS_VISIBLE_LIMIT) then StatusBelow else StatusEquals;
    sb', needsAnd, done :=
      AppendFilter(sb, needsAnd0, done, sb', needsAnd, p.status.Some?, [status], [StatusFragment(p)]);
    ghost var d8 := done;
    ClausesByStages(p, d1, d2, d3, d4, d5, d6, d7, d8);
    SameChain(sb, needsAnd0, done, Clauses(p));
  }

  /** Clauses, one optional filter at a time. */
  lemma ClausesByStages(p: SearchIdentityParams, d1: seq<seq<Fragment>>, d2: seq<seq<Fragment>>,
                        d3: seq<seq<Fragment>>, d4: seq<seq<Fragment>>, d5: seq<seq<Fragment>>,
                        d6: seq<seq<Fragment>>, d7: seq<seq<Fragment>>, d8: seq<seq<Fragment>>)
    requires d1 == AddIf([], HasIdentityKeys(p), [KeysIn])
    requires d2 == AddIf(d1, p.managed.Some?, [ManagedFragment(p)])
    requires d3 == AddIf(d2, HasAuthProviders(p), AuthGroup(p))
    requires d4 == AddIf(d3, p.createdAfter.Some?, [CreatedAfter])
    requires d5 == AddIf(d4, p.createdBefore.Some?, [CreatedBefore])
    requires d6 == AddIf(d5, p.userLoginAfter.Some?, [LastLoginAfter])
    requires d7 == AddIf(d6, p.userLoginBefore.Some?, [LastLoginBefore])
    requires d8 == AddIf(d7, p.status.Some?, [StatusFragment(p)])
    ensures d8 == Clauses(p)
  {
  }

  lemma SameChain(sb: seq<Fragment>, needsAnd: bool, clauses: seq<seq<Fragment>>, clauses': seq<seq<Fragment>>)
    requires clauses == clauses'
    ensures sb + AndChain(needsAnd, clauses) == sb + AndChain(needsAnd, clauses')
  {
  }

  /** createIdentitiesByPowerQuery: the query text for `params`; `count`
      selects the count query instead of the identity query, `order` is the
      iteration order of the user-property map. */
  method CreateIdentitiesByPowerQuery(params: SearchIdentityParams, db: Database, order: seq<string>, count: bool)
    returns (sb: seq<Fragment>)
    requires IsPropertyOrder(params, order)
    ensures sb == PowerQuery(params, db, order, count)
  {
    var hasRoles := HasRoles(params);
    var hasAuthProviders := HasAuthProviders(params);
    if count {
      sb := [SelectCount];
    } else {
      sb := [SelectDistinct];
    }
    if hasAuthProviders {
      sb := sb + [AuthJoin];
    }
    if hasRoles {
      sb := sb + [RolesJoin];
    }
    ghost var head := sb;
    if HasLogin(params) || HasUserProperties(params) || HasIdentityKeys(params)
       || params.createdAfter.Some? || params.createdBefore.Some?
       || hasAuthProviders || params.status.Some? || params.managed.Some? {
      sb := sb + [Where];
      var needsAnd;
      sb, needsAnd := AppendUserPart(sb, params, db, order);
      sb := AppendAndClauses(sb, params, needsAnd);
      ghost var user, chain := UserPart(params, db, order), AndChain(needsAnd, Clauses(params));
      assert sb == head + [Where] + user + chain;
      AppendAssociates(head, [Where] + user, chain);
      AppendAssociates(head, [Where], user);
      assert sb == head + ([Where] + user + chain);
    } else {
      assert sb == head + [];
    }
    assert head == [if count then SelectCount else SelectDistinct]
      + (if HasAuthProviders(params) then [AuthJoin] else [])
      + (if HasRoles(params) then [RolesJoin] else []);
  }
}
