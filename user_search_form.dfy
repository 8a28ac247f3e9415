/**
 * The user search form of the user administration
 * (UsermanagerUserSearchForm): how the values of its fields become the
 * SearchIdentityParams of an identity search.
 *
 *  - the login gets a "*" prefix when deleted identities are searched, and
 *    an empty login means no login filter;
 *  - each user property contributes its value unless it is blank, or it is
 *    an unticked generic checkbox; e-mail values get a "*" prefix when
 *    deleted identities are searched; no property at all means no filter;
 *  - the selected role keys become roles, blank keys skipped;
 *  - the selected authentication providers become provider names, "noAuth"
 *    a null entry and "OAuth" the names of all OAuth providers.
 *
 * The form items are values in a map held by the form; the property
 * handlers, the authentication keys and the OAuth provider names are given
 * by the caller.
 */
module UserSearchForm {
  import opened Common
  import IQ = IdentityQuery
  import SR = SecurityRoles

  const LOGIN_KEY: string := "login"
  const NO_AUTH: string := "noAuth"
  const OAUTH: string := "OAuth"
  const PROVIDER_WEBDAV: string := "WEBDAV"
  const GENERIC_CHECKBOX_PREFIX: string := "genericCheckboxProperty"

  /** A form item: a text element, a checkbox (a MultipleSelectionElement),
      or another kind of item. */
  datatype FormItem = TextItem(value: string) | CheckboxItem(checked: bool) | OtherItem

  /** A user property handler: the property name, and whether it is the
      e-mail property. */
  datatype PropertyHandler = PropertyHandler(name: string, isEmail: bool)

  predicate IsPrefix(p: string, s: string)
  {
    |p| <= |s| && s[..|p|] == p
  }

  // ---------------------------------------------------------------------
  // Login
  // ---------------------------------------------------------------------

  /** getStringValue(key): the value of the text element under `key`, null
      for a missing item or an item of another kind. */
  function StringValue(items: map<string, FormItem>, key: string): (r: Option<string>)
    ensures r.Some? <==> key in items && items[key].TextItem?
    ensures r.Some? ==> items[key] == TextItem(r.value)
  {
    if key in items && items[key].TextItem? then Some(items[key].value) else None
  }

  /** Java's string concatenation with a possibly null string. */
  function Concat(prefix: string, s: Option<string>): string
  {
    prefix + (if s.Some? then s.value else "null")
  }

  /** The login filter: with "*" in front when deleted identities are
      searched (a missing login is then "*null"); otherwise the login field,
      an empty one meaning no filter. Without the deleted status the login
      field must exist (the source dereferences it). */
  function LoginFor(items: map<string, FormItem>, status: int): (r: Option<string>)
    requires status == IQ.STATUS_DELETED || StringValue(items, LOGIN_KEY).Some?
    ensures status == IQ.STATUS_DELETED ==> r == Some(Concat("*", StringValue(items, LOGIN_KEY)))
    ensures status == IQ.STATUS_DELETED ==> r.Some? && |r.value| > 0 && r.value[0] == '*'
    ensures status != IQ.STATUS_DELETED ==> (r.None? <==> StringValue(items, LOGIN_KEY).value == "")
    ensures status != IQ.STATUS_DELETED && r.Some? ==> r.value == StringValue(items, LOGIN_KEY).value
  {
    var loginVal := if status == IQ.STATUS_DELETED then Concat("*", StringValue(items, LOGIN_KEY))
                    else StringValue(items, LOGIN_KEY).value;
    if loginVal == "" then None else Some(loginVal)
  }

  // ---------------------------------------------------------------------
  // User properties
  // ---------------------------------------------------------------------

  /** userPropertyHandler.getStringValue(item): the text of a text element,
      "true" or "false" for a checkbox, null otherwise. */
  function HandlerValue(item: Option<FormItem>): Option<string>
  {
    match item
    case Some(TextItem(v)) => Some(v)
    case Some(CheckboxItem(checked)) => Some(if checked then "true" else "false")
    case _ => None
  }

  function ItemOf(items: map<string, FormItem>, name: string): Option<FormItem>
  {
    if name in items then Some(items[name]) else None
  }

  /** Whether the handler is a generic checkbox property shown as a
      checkbox: then only "false" is left out. */
  predicate CheckboxSearch(h: PropertyHandler, item: Option<FormItem>)
  {
    IsPrefix(GENERIC_CHECKBOX_PREFIX, h.name) && item.Some? && item.value.CheckboxItem?
  }

  /** The value one property handler puts into the property search, if
      any. */
  function Contribution(h: PropertyHandler, item: Option<FormItem>, deleted: bool): (r: Option<string>)
    ensures CheckboxSearch(h, item) ==> (r.Some? <==> item.value.checked)
    ensures CheckboxSearch(h, item) && r.Some? ==> r.value == "true"
    ensures !CheckboxSearch(h, item) ==>
              (r.Some? <==> HandlerValue(item).Some? && HasText(HandlerValue(item).value))
    ensures !CheckboxSearch(h, item) && r.Some? && h.isEmail && deleted ==>
              r.value == "*" + HandlerValue(item).value
    ensures !CheckboxSearch(h, item) && r.Some? && !(h.isEmail && deleted) ==>
              r.value == HandlerValue(item).value
  {
    var uiValue := HandlerValue(item);
    if CheckboxSearch(h, item) then
      if uiValue != Some("false") then uiValue else None
    else if uiValue.Some? && HasText(uiValue.value) then
      if h.isEmail && deleted then Some("*" + uiValue.value) else uiValue
    else None
  }

  /** The property search built by the handlers, in order; a later handler
      of the same name overwrites an earlier one. */
  function PropertiesOf(hs: seq<Option<PropertyHandler>>, items: map<string, FormItem>, deleted: bool)
    : map<string, string>
  {
    if hs == [] then map[]
    else
      var m := PropertiesOf(hs[..|hs| - 1], items, deleted);
      var h := hs[|hs| - 1];
      if h.None? then m
      else match Contribution(h.value, ItemOf(items, h.value.name), deleted)
        case None => m
        case Some(v) => m[h.value.name := v]
  }

  /** The handler at `i` puts a value into the search. */
  predicate Contributes(hs: seq<Option<PropertyHandler>>, items: map<string, FormItem>, deleted: bool, i: int)
    requires 0 <= i < |hs|
  {
    hs[i].Some? && Contribution(hs[i].value, ItemOf(items, hs[i].value.name), deleted).Some?
  }

  /** A property is searched for exactly when one of its handlers
      contributes a value. */
  lemma {:induction false} PropertiesOfKeys(hs: seq<Option<PropertyHandler>>, items: map<string, FormItem>,
                                            deleted: bool)
    ensures forall k :: k in PropertiesOf(hs, items, deleted) <==>
              exists i :: 0 <= i < |hs| && Contributes(hs, items, deleted, i) && hs[i].value.name == k
  {
    if hs != [] {
      var init := hs[..|hs| - 1];
      PropertiesOfKeys(init, items, deleted);
      forall k
        ensures k in PropertiesOf(hs, items, deleted) <==>
                exists i :: 0 <= i < |hs| && Contributes(hs, items, deleted, i) && hs[i].value.name == k
      {
        if k in PropertiesOf(init, items, deleted) {
          var i :| 0 <= i < |init| && Contributes(init, items, deleted, i) && init[i].value.name == k;
          assert hs[i] == init[i];
        }
        if exists i :: 0 <= i < |hs| && Contributes(hs, items, deleted, i) && hs[i].value.name == k {
          var i :| 0 <= i < |hs| && Contributes(hs, items, deleted, i) && hs[i].value.name == k;
          if i < |init| {
            assert hs[i] == init[i];
            assert Contributes(init, items, deleted, i);
          }
        }
      }
    }
  }

  /** Distinct property names: each handler's value reaches the search
      unchanged. */
  predicate NamesDistinct(hs: seq<Option<PropertyHandler>>)
  {
    forall i, j :: 0 <= i < j < |hs| && hs[i].Some? && hs[j].Some? ==> hs[i].value.name != hs[j].value.name
  }

  /** With distinct property names, every contributing handler's value is
      the one searched for. */
  lemma {:induction false} PropertiesOfValues(hs: seq<Option<PropertyHandler>>, items: map<string, FormItem>,
                                              deleted: bool)
    requires NamesDistinct(hs)
    ensures forall i :: 0 <= i < |hs| && Contributes(hs, items, deleted, i) ==>
              var h := hs[i].value;
              h.name in PropertiesOf(hs, items, deleted)
              && PropertiesOf(hs, items, deleted)[h.name] == Contribution(h, ItemOf(items, h.name), deleted).value
  {
    if hs != [] {
      var init := hs[..|hs| - 1];
      PropertiesOfValues(init, items, deleted);
      forall i | 0 <= i < |hs| && Contributes(hs, items, deleted, i)
        ensures hs[i].value.name in PropertiesOf(hs, items, deleted)
        ensures PropertiesOf(hs, items, deleted)[hs[i].value.name]
                == Contribution(hs[i].value, ItemOf(items, hs[i].value.name), deleted).value
      {
        if i < |init| {
          assert hs[i] == init[i];
          assert Contributes(init, items, deleted, i);
        }
      }
    }
  }

  /** The property map, or null when it is empty. */
  function PropertySearch(hs: seq<Option<PropertyHandler>>, items: map<string, FormItem>, deleted: bool)
    : (r: Option<map<string, string>>)
    ensures r.Some? ==> |r.value| > 0 && r.value == PropertiesOf(hs, items, deleted)
    ensures r.None? <==> |PropertiesOf(hs, items, deleted)| == 0
  {
    var m := PropertiesOf(hs, items, deleted);
    if |m| == 0 then None else Some(m)
  }

  // ---------------------------------------------------------------------
  // Roles
  // ---------------------------------------------------------------------

  /** The role keys the form offers: the names of the organisation roles. */
  const ROLE_KEYS: seq<string> := ["administrator", "author", "groupmanager", "usermanager",
                                   "learnresourcemanager", "poolmanager", "curriculummanager"]

  /** OrganisationRoles.valueOf on the offered keys. */
  function RoleOfKey(key: string): SR.OrganisationRole
    requires key in ROLE_KEYS
  {
    if key == "administrator" then SR.Administrator
    else if key == "author" then SR.Author
    else if key == "groupmanager" then SR.GroupManager
    else if key == "usermanager" then SR.UserManager
    else if key == "learnresourcemanager" then SR.LearnResourceManager
    else if key == "poolmanager" then SR.PoolManager
    else SR.CurriculumManager
  }

  /** OrganisationRoles.name(). */
  function RoleName(role: SR.OrganisationRole): string
  {
    match role
    case Administrator => "administrator"
    case Author => "author"
    case GroupManager => "groupmanager"
    case UserManager => "usermanager"
    case LearnResourceManager => "learnresourcemanager"
    case PoolManager => "poolmanager"
    case CurriculumManager => "curriculummanager"
    case User => "user"
    case Guest => "guest"
    case OtherRole(name) => name
  }

  /** A key the role selection may hold: an offered key, or a blank one. */
  predicate RoleKeyOrBlank(key: string)
  {
    !HasText(key) || key in ROLE_KEYS
  }

  /** The roles of the non-blank selected keys, in order. */
  function RolesOf(keys: seq<string>): seq<SR.OrganisationRole>
    requires forall k :: k in keys ==> RoleKeyOrBlank(k)
  {
    if keys == [] then []
    else
      var init := RolesOf(keys[..|keys| - 1]);
      var key := keys[|keys| - 1];
      assert key in keys && RoleKeyOrBlank(key);
      if HasText(key) then init + [RoleOfKey(key)] else init
  }

  /** The non-blank keys, in order. */
  function NonBlank(keys: seq<string>): seq<string>
  {
    if keys == [] then []
    else NonBlank(keys[..|keys| - 1]) + (if HasText(keys[|keys| - 1]) then [keys[|keys| - 1]] else [])
  }

  function RoleNames(roles: seq<SR.OrganisationRole>): (names: seq<string>)
    ensures |names| == |roles| && forall i :: 0 <= i < |roles| ==> names[i] == RoleName(roles[i])
  {
    if roles == [] then [] else RoleNames(roles[..|roles| - 1]) + [RoleName(roles[|roles| - 1])]
  }

  /** The roles name exactly the non-blank selected keys, in order. */
  lemma {:induction false} RolesNameSelectedKeys(keys: seq<string>)
    requires forall k :: k in keys ==> RoleKeyOrBlank(k)
    ensures RoleNames(RolesOf(keys)) == NonBlank(keys)
  {
    if keys != [] {
      var init := keys[..|keys| - 1];
      assert forall k :: k in init ==> k in keys;
      RolesNameSelectedKeys(init);
      var key := keys[|keys| - 1];
      assert key in keys;
      if HasText(key) {
        var rs := RolesOf(init);
        assert RolesOf(keys) == rs + [RoleOfKey(key)];
        assert (rs + [RoleOfKey(key)])[..|rs|] == rs;
        assert RoleName(RoleOfKey(key)) == key;
      }
    }
  }

  // ---------------------------------------------------------------------
  // Authentication providers
  // ---------------------------------------------------------------------

  /** The names of a list, each wrapped as a non-null entry. */
  function SomeAll(xs: seq<string>): (r: seq<Option<string>>)
    ensures |r| == |xs| && forall i :: 0 <= i < |xs| ==> r[i] == Some(xs[i])
  {
    if xs == [] then [] else SomeAll(xs[..|xs| - 1]) + [Some(xs[|xs| - 1])]
  }

  /** The entries of one selected authentication key. */
  function Expand(key: string, spis: seq<string>): seq<Option<string>>
  {
    if key == NO_AUTH then [None]
    else if key == OAUTH then SomeAll(spis)
    else [Some(key)]
  }

  /** The entries of the selected keys among the first `n`. */
  function ProvidersBelow(authKeys: seq<string>, selected: set<int>, spis: seq<string>, n: nat)
    : seq<Option<string>>
    requires n <= |authKeys|
  {
    if n == 0 then []
    else ProvidersBelow(authKeys, selected, spis, n - 1)
         + (if n - 1 in selected then Expand(authKeys[n - 1], spis) else [])
  }

  /** getAuthProviders' value: the entries of every selected key, in key
      order. */
  function AuthProvidersOf(authKeys: seq<string>, selected: set<int>, spis: seq<string>): seq<Option<string>>
  {
    ProvidersBelow(authKeys, selected, spis, |authKeys|)
  }

  /** Index `i` is among the first `n` keys, is selected and holds `key`. */
  predicate SelectedKey(authKeys: seq<string>, selected: set<int>, n: int, key: string)
  {
    exists i :: 0 <= i < n && i < |authKeys| && i in selected && authKeys[i] == key
  }

  /** Whether the entries of the selected keys among the first `n` hold
      `x`: a null entry for "noAuth", a name for a key of its own or for an
      OAuth provider when "OAuth" is selected. */
  predicate Wanted(authKeys: seq<string>, selected: set<int>, spis: seq<string>, n: int, x: Option<string>)
  {
    if x.None? then SelectedKey(authKeys, selected, n, NO_AUTH)
    else (x.value != NO_AUTH && x.value != OAUTH && SelectedKey(authKeys, selected, n, x.value))
         || (x.value in spis && SelectedKey(authKeys, selected, n, OAUTH))
  }

  lemma SelectedKeyStep(authKeys: seq<string>, selected: set<int>, n: int, k: string)
    requires 0 < n <= |authKeys|
    ensures SelectedKey(authKeys, selected, n, k) <==>
              SelectedKey(authKeys, selected, n - 1, k) || (n - 1 in selected && authKeys[n - 1] == k)
  {
    if SelectedKey(authKeys, selected, n, k) {
      var i :| 0 <= i < n && i < |authKeys| && i in selected && authKeys[i] == k;
      if i < n - 1 {
        assert SelectedKey(authKeys, selected, n - 1, k);
      }
    }
  }

  lemma ExpandMembership(key: string, spis: seq<string>, x: Option<string>)
    ensures x in Expand(key, spis) <==>
              if x.None? then key == NO_AUTH
              else (key == x.value && key != NO_AUTH && key != OAUTH) || (key == OAUTH && x.value in spis)
  {
    if x.Some? && key == OAUTH && x.value in spis {
      var j :| 0 <= j < |spis| && spis[j] == x.value;
      assert SomeAll(spis)[j] == x;
    }
  }

  /** The entries of the first `n` keys are exactly the wanted ones. */
  lemma {:induction false} ProvidersBelowWanted(authKeys: seq<string>, selected: set<int>, spis: seq<string>,
                                                n: nat, x: Option<string>)
    requires n <= |authKeys|
    ensures x in ProvidersBelow(authKeys, selected, spis, n) <==> Wanted(authKeys, selected, spis, n, x)
  {
    if n > 0 {
      ProvidersBelowWanted(authKeys, selected, spis, n - 1, x);
      ExpandMembership(authKeys[n - 1], spis, x);
      SelectedKeyStep(authKeys, selected, n, NO_AUTH);
      SelectedKeyStep(authKeys, selected, n, OAUTH);
      if x.Some? {
        SelectedKeyStep(authKeys, selected, n, x.value);
      }
    }
  }

  /** The provider list holds a null entry exactly when "noAuth" is
      selected, and a name exactly when that name is selected as a key of
      its own or it is an OAuth provider and "OAuth" is selected. */
  lemma AuthProvidersMembership(authKeys: seq<string>, selected: set<int>, spis: seq<string>)
    ensures None in AuthProvidersOf(authKeys, selected, spis) <==> SelectedKey(authKeys, selected, |authKeys|, NO_AUTH)
    ensures forall name :: Some(name) in AuthProvidersOf(authKeys, selected, spis) <==>
              (name != NO_AUTH && name != OAUTH && SelectedKey(authKeys, selected, |authKeys|, name))
              || (name in spis && SelectedKey(authKeys, selected, |authKeys|, OAUTH))
  {
    ProvidersBelowWanted(authKeys, selected, spis, |authKeys|, None);
    forall name
      ensures Some(name) in AuthProvidersOf(authKeys, selected, spis) <==>
                (name != NO_AUTH && name != OAUTH && SelectedKey(authKeys, selected, |authKeys|, name))
                || (name in spis && SelectedKey(authKeys, selected, |authKeys|, OAUTH))
    {
      ProvidersBelowWanted(authKeys, selected, spis, |authKeys|, Some(name));
    }
  }

  // ---------------------------------------------------------------------
  // Form state
  // ---------------------------------------------------------------------

  /** getStateEntry's value: the value of every text element, by name. */
  function StateOf(items: map<string, FormItem>): (state: map<string, string>)
    ensures forall k :: k in state <==> k in items && items[k].TextItem?
    ensures forall k :: k in state ==> items[k] == TextItem(state[k])
  {
    map k | k in items && items[k].TextItem? :: items[k].value
  }

  /** setStateEntry's effect: each text element named in the state takes the
      state's value; other items stay as they are. */
  function ApplyState(items: map<string, FormItem>, state: map<string, string>): map<string, FormItem>
  {
    map k | k in items :: if k in state && items[k].TextItem? then TextItem(state[k]) else items[k]
  }

  /** Restoring a form's own state leaves its items as they were. */
  lemma RestoreOwnState(items: map<string, FormItem>)
    ensures ApplyState(items, StateOf(items)) == items
  {
  }

  /** After a state is applied, the form's state holds the applied values
      for its text elements and the old ones for the text elements the
      state does not name; the set of items and their kinds are kept. */
  lemma StateAfterApply(items: map<string, FormItem>, state: map<string, string>)
    ensures ApplyState(items, state).Keys == items.Keys
    ensures forall k :: k in items ==> (ApplyState(items, state)[k].TextItem? <==> items[k].TextItem?)
    ensures StateOf(ApplyState(items, state))
            == map k | k in StateOf(items) :: if k in state then state[k] else StateOf(items)[k]
  {
  }

  // ---------------------------------------------------------------------
  // The form
  // ---------------------------------------------------------------------

  /** An authentication provider of the login module. */
  datatype AuthenticationProvider = AuthenticationProvider(name: string, enabled: bool)

  /** The names of the enabled providers, in order. */
  function EnabledNames(providers: seq<AuthenticationProvider>): seq<string>
  {
    if providers == [] then []
    else EnabledNames(providers[..|providers| - 1])
         + (if providers[|providers| - 1].enabled then [providers[|providers| - 1].name] else [])
  }

  /** The authentication keys of the form: the enabled providers, WebDAV when
      that module is on, and always "noAuth" last. */
  method CollectAuthKeys(providers: seq<AuthenticationProvider>, webdavEnabled: bool) returns (keys: seq<string>)
    ensures keys == EnabledNames(providers) + (if webdavEnabled then [PROVIDER_WEBDAV] else []) + [NO_AUTH]
  {
    keys := [];
    var i := 0;
    while i < |providers|
      invariant 0 <= i <= |providers|
      invariant keys == EnabledNames(providers[..i])
    {
      assert providers[..i + 1][..i] == providers[..i];
      if providers[i].enabled {
        keys := keys + [providers[i].name];
      }
      i := i + 1;
    }
    assert providers[..i] == providers;
    if webdavEnabled {
      keys := keys + [PROVIDER_WEBDAV];
    }
    keys := keys + [NO_AUTH];
  }

  /** "noAuth" is always offered, as the last key. */
  lemma NoAuthOfferedLast(providers: seq<AuthenticationProvider>, webdavEnabled: bool)
    ensures var keys := EnabledNames(providers) + (if webdavEnabled then [PROVIDER_WEBDAV] else []) + [NO_AUTH];
            |keys| > 0 && keys[|keys| - 1] == NO_AUTH
  {
  }

  class UsermanagerUserSearchForm {
    /** The form items by name. */
    var items: map<string, FormItem>
    const userPropertyHandlers: seq<Option<PropertyHandler>>
    const authKeys: seq<string>
    /** The selected keys of the role selection. */
    var selectedRoleKeys: seq<string>
    /** The selected indices of the authentication selection. */
    var authSelected: set<int>
    /** The selected status key, as an int. */
    var status: int
    var afterDate: Option<int>
    var beforeDate: Option<int>
    var userLoginAfter: Option<int>
    var userLoginBefore: Option<int>

    /** The form with its handlers, its items and the authentication keys of
        the login module; nothing selected yet, and the status is the one
        the status selection starts with. */
    constructor(handlers: seq<Option<PropertyHandler>>, items: map<string, FormItem>,
                providers: seq<AuthenticationProvider>, webdavEnabled: bool, status: int)
      ensures userPropertyHandlers == handlers && this.items == items && this.status == status
      ensures authKeys == EnabledNames(providers) + (if webdavEnabled then [PROVIDER_WEBDAV] else []) + [NO_AUTH]
      ensures selectedRoleKeys == [] && authSelected == {}
      ensures afterDate.None? && beforeDate.None? && userLoginAfter.None? && userLoginBefore.None?
    {
      var keys := CollectAuthKeys(providers, webdavEnabled);
      userPropertyHandlers := handlers;
      this.items := items;
      authKeys := keys;
      selectedRoleKeys := [];
      authSelected := {};
      this.status := status;
      afterDate, beforeDate, userLoginAfter, userLoginBefore := None, None, None, None;
    }

    /** getRoles: the roles of the non-blank selected keys, in order. */
    method GetRoles() returns (roles: seq<SR.OrganisationRole>)
      requires forall k :: k in selectedRoleKeys ==> RoleKeyOrBlank(k)
      ensures roles == RolesOf(selectedRoleKeys)
    {
      roles := [];
      var i := 0;
      while i < |selectedRoleKeys|
        invariant 0 <= i <= |selectedRoleKeys|
        invariant forall k :: k in selectedRoleKeys[..i] ==> RoleKeyOrBlank(k)
        invariant roles == RolesOf(selectedRoleKeys[..i])
      {
        var selectedKey := selectedRoleKeys[i];
        assert selectedKey in selectedRoleKeys;
        assert selectedRoleKeys[..i + 1][..i] == selectedRoleKeys[..i];
        if HasText(selectedKey) {
          roles := roles + [RoleOfKey(selectedKey)];
        }
        i := i + 1;
      }
      assert selectedRoleKeys[..i] == selectedRoleKeys;
    }

    /** getAuthProviders: the entries of the selected keys, in key order. */
    method GetAuthProviders(spis: seq<string>) returns (apl: seq<Option<string>>)
      ensures apl == AuthProvidersOf(authKeys, authSelected, spis)
    {
      apl := [];
      var i := 0;
      while i < |authKeys|
        invariant 0 <= i <= |authKeys|
        invariant apl == ProvidersBelow(authKeys, authSelected, spis, i)
      {
        if i in authSelected {
          var authKey := authKeys[i];
          if authKey == NO_AUTH {
            apl := apl + [None];
          } else if authKey == OAUTH {
            apl := AddAll(apl, spis);
          } else {
            apl := apl + [Some(authKey)];
          }
        }
        i := i + 1;
      }
    }

    /** The loop over the OAuth providers: each name is added. */
    static method AddAll(apl: seq<Option<string>>, spis: seq<string>) returns (r: seq<Option<string>>)
      ensures r == apl + SomeAll(spis)
    {
      r := apl;
      var j := 0;
      while j < |spis|
        invariant 0 <= j <= |spis|
        invariant r == apl + SomeAll(spis[..j])
      {
        assert spis[..j + 1][..j] == spis[..j];
        r := r + [Some(spis[j])];
        j := j + 1;
      }
      assert spis[..j] == spis;
    }

    /** The loop of getSearchIdentityParams over the property handlers. */
    method UserPropertiesSearch(deleted: bool) returns (search: map<string, string>)
      ensures search == PropertiesOf(userPropertyHandlers, items, deleted)
    {
      search := map[];
      var hs := userPropertyHandlers;
      var i := 0;
      while i < |hs|
        invariant 0 <= i <= |hs|
        invariant search == PropertiesOf(hs[..i], items, deleted)
      {
        assert hs[..i + 1][..i] == hs[..i];
        var handler := hs[i];
        if handler.Some? {
          var h := handler.value;
          var ui := ItemOf(items, h.name);
          var uiValue := HandlerValue(ui);
          if IsPrefix(GENERIC_CHECKBOX_PREFIX, h.name) && ui.Some? && ui.value.CheckboxItem? {
            if uiValue != Some("false") {
              search := search[h.name := uiValue.value];
            }
          } else if uiValue.Some? && HasText(uiValue.value) {
            var v := uiValue.value;
            if h.isEmail && deleted {
              v := "*" + v;
            }
            search := search[h.name := v];
          }
        }
        i := i + 1;
      }
      assert hs[..i] == hs;
    }

    /** getSearchIdentityParams: the login, the property search (null when
        empty), intersection search, the selected roles and providers, the
        dates and the status. */
    method GetSearchIdentityParams(spis: seq<string>) returns (p: IQ.SearchIdentityParams)
      requires status == IQ.STATUS_DELETED || StringValue(items, LOGIN_KEY).Some?
      requires forall k :: k in selectedRoleKeys ==> RoleKeyOrBlank(k)
      ensures p.login == LoginFor(items, status)
      ensures p.userProperties == PropertySearch(userPropertyHandlers, items, status == IQ.STATUS_DELETED)
      ensures p.userPropertiesAsIntersectionSearch
      ensures p.roles == Some(RolesOf(selectedRoleKeys))
      ensures p.authProviders == Some(AuthProvidersOf(authKeys, authSelected, spis))
      ensures p.createdAfter == afterDate && p.createdBefore == beforeDate
      ensures p.userLoginAfter == userLoginAfter && p.userLoginBefore == userLoginBefore
      ensures p.status == Some(status) && p.identityKeys.None? && p.managed.None?
    {
      var loginVal := StringValue(items, LOGIN_KEY);
      if status == IQ.STATUS_DELETED {
        loginVal := Some(Concat("*", loginVal));
      }
      loginVal := if loginVal.value == "" then None else loginVal;

      var search := UserPropertiesSearch(status == IQ.STATUS_DELETED);
      var userPropertiesSearch := if |search| == 0 then None else Some(search);

      var selectedRoles := GetRoles();
      var providers := GetAuthProviders(spis);
      p := IQ.SearchIdentityParams(loginVal, userPropertiesSearch, true, Some(selectedRoles), Some(providers),
                                   afterDate, beforeDate, userLoginAfter, userLoginBefore, Some(status), None, None);
    }

    /** getStateEntry: the values of the text elements, by name. */
    method GetStateEntry() returns (state: map<string, string>)
      ensures state == StateOf(items)
    {
      state := map[];
      var remaining := items.Keys;
      while remaining != {}
        invariant remaining <= items.Keys
        invariant state == StateOf(Restrict(items, items.Keys - remaining))
        decreases remaining
      {
        var key :| key in remaining;
        StateOfStep(items, items.Keys - remaining, key);
        assert items.Keys - (remaining - {key}) == (items.Keys - remaining) + {key};
        var f := items[key];
        if f.TextItem? {
          state := state[key := f.value];
        }
        remaining := remaining - {key};
      }
      assert Restrict(items, items.Keys) == items;
    }

    /** setStateEntry: every text element named in the state takes the
        state's value. */
    method SetStateEntry(state: map<string, string>)
      modifies this`items
      ensures items == ApplyState(old(items), state)
    {
      var remaining := state.Keys;
      while remaining != {}
        invariant remaining <= state.Keys
        invariant items == ApplyState(old(items), Restrict(state, state.Keys - remaining))
        decreases remaining
      {
        var key :| key in remaining;
        ApplyStateStep(old(items), state, state.Keys - remaining, key);
        assert state.Keys - (remaining - {key}) == (state.Keys - remaining) + {key};
        var value := state[key];
        if key in items && items[key].TextItem? {
          items := items[key := TextItem(value)];
        }
        remaining := remaining - {key};
      }
      assert Restrict(state, state.Keys) == state;
    }
  }

  /** The entries of `m` whose keys are in `keys`. */
  function Restrict<V>(m: map<string, V>, keys: set<string>): map<string, V>
  {
    map k | k in m && k in keys :: m[k]
  }

  /** Reading one more item into the state. */
  lemma StateOfStep(items: map<string, FormItem>, done: set<string>, key: string)
    requires key in items
    ensures StateOf(Restrict(items, done + {key}))
            == if items[key].TextItem? then StateOf(Restrict(items, done))[key := items[key].value]
               else StateOf(Restrict(items, done)) - {key}
  {
  }

  /** Applying one more entry of the state. */
  lemma ApplyStateStep(items: map<string, FormItem>, state: map<string, string>, done: set<string>, key: string)
    requires key in state
    ensures var before := ApplyState(items, Restrict(state, done));
            ApplyState(items, Restrict(state, done + {key}))
            == if key in before && before[key].TextItem? then before[key := TextItem(state[key])] else before
  {
  }
}
