/** Parsing of the Netflix website of resources/lib/api/website.py: the
    user data read from the page's `reactContext`, the authURL check, the
    API roots taken from the server definitions and the membership check
    that closes `extract_session_data`. */
module Website {
  import opened Wrappers
  import opened Json
  import MiscUtils

  /** `PAGE_ITEMS`: the paths of the user data inside `reactContext` */
  const PageItems: seq<string> := [
    "gpsModel",
    "models/userInfo/data/authURL",
    "models/userInfo/data/guid",
    "models/userInfo/data/countryOfSignup",
    "models/userInfo/data/membershipStatus",
    "models/serverDefs/data/BUILD_IDENTIFIER",
    "models/serverDefs/data/ICHNAEA_ROOT",
    "models/serverDefs/data/API_ROOT",
    "models/serverDefs/data/API_BASE_URL",
    "models/esnGeneratorModel/data/esn"
  ]

  /** The user data before the page is read */
  const InitialUserData: map<string, Json> := map["gpsModel" := JStr("harris")]

  const AuthUrlLength: nat := 42
  const CurrentMember: string := "CURRENT_MEMBER"
  const ServerDefs: string := "serverDefs"

  /** `path[-1]` */
  function Last(path: seq<string>): string
    requires path != []
  {
    path[|path| - 1]
  }

  // extract_userdata

  /** One pass of the loop: a path that is found is stored under its last
      segment; a missing one (`KeyError`, `AttributeError`) is skipped; any
      other exception of `get_path` escapes. */
  function StoreItem(userData: map<string, Json>, item: string, react: Json): (r: Result<map<string, Json>>)
  {
    var path := MiscUtils.Split(item);
    match GetPath(react, path)
    case Ok(v) => Ok(userData[Last(path) := v])
    case Err(e) => if e == KeyError || e == AttributeError then Ok(userData) else Err(e)
  }

  /** An exception of `get_path` that the loop does not catch */
  predicate Escapes(item: string, react: Json) {
    var found := GetPath(react, MiscUtils.Split(item));
    found.Err? && found.exc != KeyError && found.exc != AttributeError
  }

  /** The loop of `extract_userdata` over `items`, from `userData` */
  function StoreItems(items: seq<string>, react: Json, userData: map<string, Json>): (r: Result<map<string, Json>>)
    ensures r.Err? <==> exists j :: 0 <= j < |items| && Escapes(items[j], react)
    ensures r.Err? ==> exists j :: 0 <= j < |items| && GetPath(react, MiscUtils.Split(items[j])) == Err(r.exc)
    ensures r.Ok? ==> userData.Keys <= r.value.Keys
    decreases |items|
  {
    if items == [] then Ok(userData)
    else
      var next :- StoreItem(userData, items[0], react);
      var r := StoreItems(items[1..], react, next);
      assert forall j :: 0 < j < |items| ==> items[j] == items[1..][j - 1];
      r
  }

  /** One pass of the loop, from the `i`th item on */
  lemma StoreItemsStep(items: seq<string>, i: nat, react: Json, userData: map<string, Json>)
    requires i < |items|
    ensures var next := StoreItem(userData, items[i], react);
            StoreItems(items[i..], react, userData) ==
              if next.Err? then Err(next.exc) else StoreItems(items[i + 1..], react, next.value)
  {
    assert items[i..][0] == items[i] && items[i..][1..] == items[i + 1..];
  }

  /** Each found path ends up under its last segment, and a missing one
      leaves that key as it was, when no other item shares the segment. */
  lemma {:induction false} StoredUnderLastSegment(items: seq<string>, react: Json, userData: map<string, Json>, i: nat)
    requires StoreItems(items, react, userData).Ok? && i < |items|
    requires forall j | 0 <= j < |items| && j != i ::
      Last(MiscUtils.Split(items[j])) != Last(MiscUtils.Split(items[i]))
    ensures var r := StoreItems(items, react, userData).value;
            var path := MiscUtils.Split(items[i]);
            var key := Last(path);
            && (GetPath(react, path).Ok? ==> key in r && r[key] == GetPath(react, path).value)
            && (GetPath(react, path).Err? ==> (key in r <==> key in userData) && (key in userData ==> r[key] == userData[key]))
    decreases |items|
  {
    var next := StoreItem(userData, items[0], react).value;
    assert forall j :: 0 < j < |items| ==> items[j] == items[1..][j - 1];
    if i == 0 {
      KeepsOtherKeys(items[1..], react, next, Last(MiscUtils.Split(items[0])));
    } else {
      StoredUnderLastSegment(items[1..], react, next, i - 1);
    }
  }

  /** A key that is no item's last segment keeps its value. */
  lemma {:induction false} KeepsOtherKeys(items: seq<string>, react: Json, userData: map<string, Json>, key: string)
    requires StoreItems(items, react, userData).Ok?
    requires forall j | 0 <= j < |items| :: Last(MiscUtils.Split(items[j])) != key
    ensures var r := StoreItems(items, react, userData).value;
            (key in r <==> key in userData) && (key in userData ==> r[key] == userData[key])
    decreases |items|
  {
    if items != [] {
      assert forall j :: 0 < j < |items| ==> items[j] == items[1..][j - 1];
      KeepsOtherKeys(items[1..], react, StoreItem(userData, items[0], react).value, key);
    }
  }

  /** `assert_valid_auth_url(user_data)`: a missing authURL counts as `''` */
  function AssertValidAuthUrl(userData: map<string, Json>): (r: Result<map<string, Json>>)
    ensures var url := if "authURL" in userData then userData["authURL"] else JStr("");
            && (r.Ok? <==> Len(url) == Ok(AuthUrlLength))
            && (r.Ok? ==> r.value == userData)
            && (r.Err? ==> r.exc == (if Len(url).Ok? then InvalidAuthUrl else TypeError))
    ensures "authURL" !in userData ==> r == Err(InvalidAuthUrl)
  {
    var url := if "authURL" in userData then userData["authURL"] else JStr("");
    var n :- Len(url);
    if n != AuthUrlLength then Err(InvalidAuthUrl) else Ok(userData)
  }

  /** `extract_userdata`, given the `reactContext` JSON of the page */
  function ExtractUserdataSpec(react: Json): Result<map<string, Json>> {
    var userData :- StoreItems(PageItems, react, InitialUserData);
    AssertValidAuthUrl(userData)
  }

  /** A page without `reactContext` gives `{}`, so nothing is found and the
      missing authURL is rejected. */
  lemma EmptyPageIsRejected()
    ensures StoreItems(PageItems, JObj(map[]), InitialUserData) == Ok(InitialUserData)
    ensures ExtractUserdataSpec(JObj(map[])) == Err(InvalidAuthUrl)
  {

    NothingFound(PageItems, InitialUserData);
  }

  lemma {:induction false} NothingFound(items: seq<string>, userData: map<string, Json>)
    requires forall j | 0 <= j < |items| :: MiscUtils.Split(items[j]) != []
    ensures StoreItems(items, JObj(map[]), userData) == Ok(userData)
    decreases |items|
  {
    if items != [] {
      assert forall j :: 0 < j < |items| ==> items[j] == items[1..][j - 1];
      NothingFound(items[1..], userData);
    }
  }

  // extract_session_data

  /** The `api_data` keys: the last segment of each item naming
      `serverDefs`, in list order */
  function ApiItems(items: seq<string>): (keys: seq<string>)
    ensures forall key :: key in keys <==>
      exists i :: 0 <= i < |items| && Occurs(ServerDefs, items[i]) && key == Last(MiscUtils.Split(items[i]))
    decreases |items|
  {
    if items == [] then []
    else
      var rest := ApiItems(items[1..]);
      assert forall i :: 0 < i < |items| ==> items[i] == items[1..][i - 1];
      if Occurs(ServerDefs, items[0]) then [Last(MiscUtils.Split(items[0]))] + rest else rest
  }

  /** The `api_data` comprehension: `user_data[key]` for each key, so a
      missing key raises `KeyError`. */
  function ApiData(userData: map<string, Json>, keys: seq<string>): (r: Result<map<string, Json>>)
    ensures r.Ok? <==> forall k :: k in keys ==> k in userData
    ensures r.Err? ==> r.exc == KeyError
    ensures r.Ok? ==> r.value.Keys == (set k | k in keys)
    ensures r.Ok? ==> forall k :: k in r.value ==> k in userData && r.value[k] == userData[k]
  {
    if forall k :: k in keys ==> k in userData then Ok(map k | k in keys :: userData[k])
    else Err(KeyError)
  }

  /** `generate_esn` off Android: the user data's ESN, or `''` */
  function GenerateEsn(userData: map<string, Json>): (esn: Json)
    ensures "esn" in userData ==> esn == userData["esn"]
    ensures "esn" !in userData ==> esn == JStr("")
  {
    if "esn" in userData then userData["esn"] else JStr("")
  }

  datatype SessionData = SessionData(profiles: Json, userData: map<string, Json>, esn: Json, apiData: map<string, Json>)

  /** `extract_session_data(content)`, given the outcome of
      `extract_profiles` and the page's `reactContext`: the membership is
      checked last, after the API data is collected. */
  function ExtractSessionData(profiles: Result<Json>, react: Json): (r: Result<SessionData>)
    ensures r.Ok? ==> (
      && profiles == Ok(r.value.profiles)
      && ExtractUserdataSpec(react) == Ok(r.value.userData)
      && "membershipStatus" in r.value.userData
      && r.value.userData["membershipStatus"] == JStr(CurrentMember)
      && "authURL" in r.value.userData
      && Len(r.value.userData["authURL"]) == Ok(AuthUrlLength)
      && r.value.esn == GenerateEsn(r.value.userData)
      && ApiData(r.value.userData, ApiItems(PageItems)) == Ok(r.value.apiData))
    ensures profiles.Ok? && ExtractUserdataSpec(react).Ok? && ApiData(ExtractUserdataSpec(react).value, ApiItems(PageItems)).Ok? ==>
      (r.Ok? <==> "membershipStatus" in ExtractUserdataSpec(react).value &&
                  ExtractUserdataSpec(react).value["membershipStatus"] == JStr(CurrentMember))
    ensures r.Err? ==> (r.exc == InvalidMembershipStatus || r.exc == KeyError ||
                        profiles.Err? || ExtractUserdataSpec(react).Err?)
  {
    var p :- profiles;
    var userData :- ExtractUserdataSpec(react);
    var esn := GenerateEsn(userData);
    var apiData :- ApiData(userData, ApiItems(PageItems));
    var status := if "membershipStatus" in userData then userData["membershipStatus"] else JNull;
    if status != JStr(CurrentMember) then Err(InvalidMembershipStatus)
    else Ok(SessionData(p, userData, esn, apiData))
  }

  /** `extract_userdata(content)`, with `extract_json` already applied */
  method ExtractUserdata(react: Json) returns (r: Result<map<string, Json>>)
    ensures r == ExtractUserdataSpec(react)
  {
    var userData := StoreAll(PageItems, react, InitialUserData);
    if userData.Err? {
      return Err(userData.exc);
    }
    r := AssertValidAuthUrl(userData.value);
  }

  /** The loop of `extract_userdata` over `items` */
  method StoreAll(items: seq<string>, react: Json, start: map<string, Json>) returns (r: Result<map<string, Json>>)
    ensures r == StoreItems(items, react, start)
  {
    var userData := start;
    var i := 0;
    assert items[0..] == items;
    while i < |items|
      invariant 0 <= i <= |items|
      invariant StoreItems(items, react, start) == StoreItems(items[i..], react, userData)
    {
      StoreItemsStep(items, i, react, userData);
      var path := MiscUtils.Split(items[i]);
      var found := GetPath(react, path);
      if found.Ok? {
        userData := userData[Last(path) := found.value];
      } else if found.exc != KeyError && found.exc != AttributeError {
        return Err(found.exc);
      }
      i := i + 1;
    }
    assert items[i..] == [];
    r := Ok(userData);
  }
}
