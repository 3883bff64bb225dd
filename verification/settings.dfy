/** The settings page's profile form and notification switches, and the
    `/api/settings` POST route that the Save button calls. */
module SettingsPage {
  import opened Wrappers
  import opened Text
  import opened Seqs
  import opened Config

  // ---------------------------------------------------------------------
  // Name and avatar
  // ---------------------------------------------------------------------

  /** Everything before the first space (`name.split(' ')[0]`). */
  function FirstName(name: string): (r: string)
    ensures ' ' !in r
  {
    Split(name, ' ')[0]
  }

  /** Everything after the first space (`name.split(' ').slice(1).join(' ')`):
      empty for a one-word name, otherwise what completes the first name and
      a space to the whole name. */
  function LastName(name: string): (r: string)
    ensures ' ' !in name ==> r == ""
    ensures ' ' in name ==> FirstName(name) + " " + r == name
  {
    SplitHead(name, ' ');
    JoinSplit(name, ' ');
    Join(Split(name, ' ')[1..], ' ')
  }

  /** A name without a space is all first name and no last name; otherwise the
      first name stops at the first space, and first name, one space and last
      name give back the name. */
  lemma NameSplitRoundTrip(name: string)
    ensures ' ' !in name ==> FirstName(name) == name && LastName(name) == ""
    ensures ' ' in name ==> exists k :: 0 <= k < |name| && name[k] == ' ' && ' ' !in name[..k] && FirstName(name) == name[..k]
    ensures ' ' in name ==> FirstName(name) + " " + LastName(name) == name
  {
    SplitHead(name, ' ');
    JoinSplit(name, ' ');
  }

  const DefaultAvatar := "https://i.pravatar.cc/150?img=32"

  /** `userData.avatar || DEFAULT`: a missing or empty avatar falls back. */
  function AvatarOrDefault(avatar: Option<string>): (r: string)
    ensures avatar.Some? && avatar.value != "" ==> r == avatar.value
    ensures avatar.None? || avatar.value == "" ==> r == DefaultAvatar
    ensures r != ""
  {
    if avatar.Some? && avatar.value != "" then avatar.value else DefaultAvatar
  }

  // ---------------------------------------------------------------------
  // Notification preferences
  // ---------------------------------------------------------------------

  /** `notificationPrefs.find(pref => pref.id === id)`. */
  function FindPref(prefs: seq<NotificationPreference>, id: string): (r: Option<NotificationPreference>)
    ensures r.None? <==> forall i :: 0 <= i < |prefs| ==> prefs[i].id != id
    ensures r.Some? ==> exists k :: 0 <= k < |prefs| && prefs[k] == r.value && r.value.id == id
                          && forall j :: 0 <= j < k ==> prefs[j].id != id
    decreases |prefs|
  {
    if |prefs| == 0 then None
    else if prefs[0].id == id then Some(prefs[0])
    else
      var r := FindPref(prefs[1..], id);
      assert forall i :: 1 <= i < |prefs| ==> prefs[i] == prefs[1..][i - 1];
      r
  }

  /** `updateNotificationPref`: every preference with the id gets the new
      switch value; nothing else changes. */
  function UpdatePref(prefs: seq<NotificationPreference>, id: string, enabled: bool): (r: seq<NotificationPreference>)
    ensures |r| == |prefs|
    ensures forall i :: 0 <= i < |prefs| ==>
              if prefs[i].id == id then r[i] == prefs[i].(enabled := enabled) else r[i] == prefs[i]
  {
    seq(|prefs|, i requires 0 <= i < |prefs| => if prefs[i].id == id then prefs[i].(enabled := enabled) else prefs[i])
  }

  /** Switching an unknown id changes nothing; switching twice is switching
      once; the list keeps its ids, titles, descriptions and categories. */
  lemma UpdatePrefProperties(prefs: seq<NotificationPreference>, id: string, enabled: bool)
    ensures (forall i :: 0 <= i < |prefs| ==> prefs[i].id != id) ==> UpdatePref(prefs, id, enabled) == prefs
    ensures UpdatePref(UpdatePref(prefs, id, enabled), id, enabled) == UpdatePref(prefs, id, enabled)
    ensures forall i :: 0 <= i < |prefs| ==>
              UpdatePref(prefs, id, enabled)[i].(enabled := prefs[i].enabled) == prefs[i]
  {
  }

  /** After the switch, the preference found under the id carries the new
      value, and the ones found under other ids are as before. */
  lemma {:induction false} FindAfterUpdate(prefs: seq<NotificationPreference>, id: string, other: string, enabled: bool)
    ensures FindPref(UpdatePref(prefs, id, enabled), id) ==
              match FindPref(prefs, id) case None => None case Some(p) => Some(p.(enabled := enabled))
    ensures other != id ==> FindPref(UpdatePref(prefs, id, enabled), other) == FindPref(prefs, other)
    decreases |prefs|
  {
    if |prefs| > 0 {
      var u := UpdatePref(prefs, id, enabled);
      assert u[1..] == UpdatePref(prefs[1..], id, enabled);
      FindAfterUpdate(prefs[1..], id, other, enabled);
    }
  }

  predicate IsEmailPref(p: NotificationPreference) { p.category == EmailCategory }

  predicate IsSystemPref(p: NotificationPreference) { p.category == SystemCategory }

  /** The "Email Notifications" block. */
  function EmailPrefs(prefs: seq<NotificationPreference>): (r: seq<NotificationPreference>)
    ensures forall p :: p in r <==> p in prefs && p.category == EmailCategory
    ensures IsSubseq(r, prefs)
    ensures forall p :: multiset(r)[p] == if p.category == EmailCategory then multiset(prefs)[p] else 0
  {
    FilterMembers(prefs, IsEmailPref);
    FilterIsSubseq(prefs, IsEmailPref);
    Filter(prefs, IsEmailPref)
  }

  /** The "System Notifications" block. */
  function SystemPrefs(prefs: seq<NotificationPreference>): (r: seq<NotificationPreference>)
    ensures forall p :: p in r <==> p in prefs && p.category == SystemCategory
    ensures IsSubseq(r, prefs)
    ensures forall p :: multiset(r)[p] == if p.category == SystemCategory then multiset(prefs)[p] else 0
  {
    FilterMembers(prefs, IsSystemPref);
    FilterIsSubseq(prefs, IsSystemPref);
    Filter(prefs, IsSystemPref)
  }

  /** The two blocks keep the list's order, share no entry, and leave the
      marketing preferences out of the page. */
  lemma PrefBlocksPartition(prefs: seq<NotificationPreference>)
    ensures IsSubseq(EmailPrefs(prefs), prefs) && IsSubseq(SystemPrefs(prefs), prefs)
    ensures forall p :: !(p in EmailPrefs(prefs) && p in SystemPrefs(prefs))
    ensures forall p :: p in prefs && p.category == MarketingCategory ==> p !in EmailPrefs(prefs) && p !in SystemPrefs(prefs)
    ensures |EmailPrefs(prefs)| + |SystemPrefs(prefs)| <= |prefs|
  {
    FilterIsSubseq(prefs, IsEmailPref);
    FilterIsSubseq(prefs, IsSystemPref);
    EmailSystemCount(prefs);
  }

  lemma {:induction false} EmailSystemCount(prefs: seq<NotificationPreference>)
    ensures |Filter(prefs, IsEmailPref)| + |Filter(prefs, IsSystemPref)| <= |prefs|
    decreases |prefs|
  {
    if |prefs| > 0 {
      EmailSystemCount(prefs[1..]);
    }
  }

  // ---------------------------------------------------------------------
  // The POST route
  // ---------------------------------------------------------------------

  /** A parsed JSON value. Numbers are integers here. */
  datatype Json =
    | JNull
    | JBool(b: bool)
    | JNumber(n: int)
    | JString(s: string)
    | JArray(items: seq<Json>)
    | JObject(members: seq<(string, Json)>)

  /** JavaScript truthiness of a JSON value. */
  predicate Truthy(v: Json) {
    match v
    case JNull => false
    case JBool(b) => b
    case JNumber(n) => n != 0
    case JString(s) => s != ""
    case JArray(_) => true
    case JObject(_) => true
  }

  /** The value bound to `key`; `JSON.parse` keeps the last of repeated keys. */
  function Lookup(members: seq<(string, Json)>, key: string): (r: Option<Json>)
    ensures r.None? <==> forall i :: 0 <= i < |members| ==> members[i].0 != key
    ensures r.Some? ==> exists i :: 0 <= i < |members| && members[i] == (key, r.value)
                          && forall j :: i < j < |members| ==> members[j].0 != key
    decreases |members|
  {
    if |members| == 0 then None
    else if members[|members| - 1].0 == key then Some(members[|members| - 1].1)
    else
      var init := members[..|members| - 1];
      assert forall i :: 0 <= i < |init| ==> init[i] == members[i];
      Lookup(init, key)
  }

  /** Destructuring a property of a non-null value: only objects have one;
      any other value yields `undefined`, which is falsy. */
  predicate HasTruthy(v: Json, key: string) {
    v.JObject? && Lookup(v.members, key).Some? && Truthy(Lookup(v.members, key).value)
  }

  /** The request body as the route reads it: `req.json()` either rejects or
      gives a value. */
  datatype RequestBody = Unparsable | Parsed(value: Json)

  datatype ResponseBody = ErrorBody(error: string) | MessageBody(message: string)

  datatype Response = Response(status: int, body: ResponseBody)

  /** Whether all three required fields are truthy. */
  predicate Complete(v: Json) {
    HasTruthy(v, "firstName") && HasTruthy(v, "lastName") && HasTruthy(v, "email")
  }

  /** The route: a body that does not parse, or a JSON `null` (whose
      destructuring throws), is a 500; a body with any of the three fields
      falsy or absent is a 400; anything else is a 200. */
  function Post(req: RequestBody): (r: Response)
    ensures r.status == 500 <==> req.Unparsable? || req.value == JNull
    ensures r.status == 400 <==> req.Parsed? && req.value != JNull && !Complete(req.value)
    ensures r.status == 200 <==> req.Parsed? && req.value != JNull && Complete(req.value)
    ensures r.status == 500 ==> r.body == ErrorBody("Internal Server Error")
    ensures r.status == 400 ==> r.body == ErrorBody("Missing required fields")
    ensures r.status == 200 ==> r.body == MessageBody("Settings saved successfully")
  {
    match req
    case Unparsable => Response(500, ErrorBody("Internal Server Error"))
    case Parsed(v) =>
      if v == JNull then Response(500, ErrorBody("Internal Server Error"))
      else if !HasTruthy(v, "firstName") || !HasTruthy(v, "lastName") || !HasTruthy(v, "email") then
        Response(400, ErrorBody("Missing required fields"))
      else Response(200, MessageBody("Settings saved successfully"))
  }

  /** Only the three required fields matter: two objects that bind them to the
      same values get the same response, whatever else they carry. */
  lemma ExtraFieldsIgnored(a: seq<(string, Json)>, b: seq<(string, Json)>)
    requires Lookup(a, "firstName") == Lookup(b, "firstName")
    requires Lookup(a, "lastName") == Lookup(b, "lastName")
    requires Lookup(a, "email") == Lookup(b, "email")
    ensures Post(Parsed(JObject(a))) == Post(Parsed(JObject(b)))
  {
  }

  /** The body the Save button sends: `JSON.stringify({ firstName, lastName, email })`. */
  function SaveRequest(firstName: string, lastName: string, email: string): RequestBody {
    Parsed(JObject([("firstName", JString(firstName)), ("lastName", JString(lastName)), ("email", JString(email))]))
  }

  /** The form's request succeeds exactly when none of the three is empty. */
  lemma SaveRequestAccepted(firstName: string, lastName: string, email: string)
    ensures Post(SaveRequest(firstName, lastName, email)).status == 200 <==>
              firstName != "" && lastName != "" && email != ""
    ensures Post(SaveRequest(firstName, lastName, email)).status in {200, 400}
  {
    var m := [("firstName", JString(firstName)), ("lastName", JString(lastName)), ("email", JString(email))];
    assert m[..2] == [m[0], m[1]] && m[..2][..1] == [m[0]];
    assert Lookup(m, "firstName") == Lookup(m[..2], "firstName") == Lookup(m[..1], "firstName") == Some(JString(firstName));
    assert Lookup(m, "lastName") == Lookup(m[..2], "lastName") == Some(JString(lastName));
    assert Lookup(m, "email") == Some(JString(email));
  }

  // ---------------------------------------------------------------------
  // The form
  // ---------------------------------------------------------------------

  datatype Form = Form(
    user: Option<User>,
    avatar: string,
    firstName: string,
    lastName: string,
    email: string,
    isLoading: bool,
    isSaved: bool,
    prefs: seq<NotificationPreference>,
    alert: Option<string>)

  const InitialForm := Form(None, DefaultAvatar, "", "", "", false, false, [], None)

  /** The mount effect: the profile fields and switches from the loaded
      configuration. */
  function LoadForm(f: Form, config: AppConfig): (r: Form)
    ensures r.user == Some(config.user) && r.email == config.user.email && r.prefs == config.notifications
    ensures r.avatar == AvatarOrDefault(config.user.avatar)
    ensures ' ' !in config.user.name ==> r.firstName == config.user.name && r.lastName == ""
    ensures ' ' in config.user.name ==> r.firstName + " " + r.lastName == config.user.name
    ensures ' ' !in r.firstName
    ensures r.isLoading == f.isLoading && r.isSaved == f.isSaved && r.alert == f.alert
  {
    NameSplitRoundTrip(config.user.name);
    f.(user := Some(config.user), firstName := FirstName(config.user.name), lastName := LastName(config.user.name),
       email := config.user.email, avatar := AvatarOrDefault(config.user.avatar), prefs := config.notifications)
  }

  /** What the save request came back with. */
  datatype SaveOutcome = SaveResponded(status: int) | SaveThrew

  /** `res.ok`: a 2xx status. */
  predicate Ok(status: int) { 200 <= status <= 299 }

  /** `handleSave` once the request settles: an OK response marks the form
      saved, a failed one alerts "Failed to save settings.", a thrown fetch
      alerts "An error occurred."; loading ends in every case and the profile
      fields stay as typed. */
  function HandleSave(f: Form, outcome: SaveOutcome): (r: Form)
    ensures !r.isLoading
    ensures outcome.SaveResponded? && Ok(outcome.status) ==> r.isSaved && r.alert == f.alert
    ensures outcome.SaveResponded? && !Ok(outcome.status) ==> r.alert == Some("Failed to save settings.") && r.isSaved == f.isSaved
    ensures outcome.SaveThrew? ==> r.alert == Some("An error occurred.") && r.isSaved == f.isSaved
    ensures r.(isLoading := f.isLoading, isSaved := f.isSaved, alert := f.alert) == f
  {
    match outcome
    case SaveResponded(status) =>
      if Ok(status) then f.(isLoading := false, isSaved := true)
      else f.(isLoading := false, alert := Some("Failed to save settings."))
    case SaveThrew => f.(isLoading := false, alert := Some("An error occurred."))
  }

  /** The save round: the form's request goes to the route and its response
      comes back to the handler. */
  function Save(f: Form): Form {
    HandleSave(f, SaveResponded(Post(SaveRequest(f.firstName, f.lastName, f.email)).status))
  }

  /** A user whose name has no space loads with an empty last name, so saving
      the form unchanged is refused and alerts. */
  lemma SingleWordNameCannotBeSaved(f: Form, config: AppConfig)
    requires ' ' !in config.user.name
    ensures var g := LoadForm(f, config);
            Post(SaveRequest(g.firstName, g.lastName, g.email)).status == 400
            && Save(g).alert == Some("Failed to save settings.") && !Save(g).isSaved == !g.isSaved
  {
    var g := LoadForm(f, config);
    SaveRequestAccepted(g.firstName, g.lastName, g.email);
  }

  /** Two space-free words joined by one space split back into them. */
  lemma TwoWordName(first: string, last: string)
    requires ' ' !in first && ' ' !in last
    ensures FirstName(first + " " + last) == first && LastName(first + " " + last) == last
  {
    var name := first + " " + last;
    assert name[|first|] == ' ';
    NameSplitRoundTrip(name);
    var k :| 0 <= k < |name| && name[k] == ' ' && ' ' !in name[..k] && FirstName(name) == name[..k];
    assert name[..k] == first;
    assert name[|first| + 1..] == last;
  }

  /** The default user ("John Doe") loads as "John" and "Doe" and saves. */
  lemma DefaultUserSaves(f: Form, config: AppConfig)
    requires config.user == DefaultUser
    ensures LoadForm(f, config).firstName == "John" && LoadForm(f, config).lastName == "Doe"
    ensures Save(LoadForm(f, config)).isSaved
  {
    assert config.user.name == "John" + " " + "Doe";
    TwoWordName("John", "Doe");
    var g := LoadForm(f, config);
    SaveRequestAccepted(g.firstName, g.lastName, g.email);
  }
}
