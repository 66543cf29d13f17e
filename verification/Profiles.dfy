/** Profiles as values: the list, its invariant, the edits made to it and its stored form. */
module Profiles {
  import opened Decimal

  datatype Profile = Profile(
    id: string, name: string, url: string, content: string, isActive: bool,
    totalGB: real, usedGB: real, remainingDays: int, lastUpdated: int)

  /** Traffic and expiry numbers of a download. */
  datatype Info = Info(totalGB: real, usedGB: real, remainingDays: int, valid: bool)

  predicate HasId(ps: seq<Profile>, id: string) {
    exists i :: 0 <= i < |ps| && ps[i].id == id
  }

  predicate HasUrl(ps: seq<Profile>, url: string) {
    exists i :: 0 <= i < |ps| && ps[i].url == url
  }

  /** Ids are set and distinct, URLs that are set are distinct, at most one profile is active. */
  predicate Good(ps: seq<Profile>) {
    && (forall i :: 0 <= i < |ps| ==> ps[i].id != "")
    && (forall i, j :: 0 <= i < j < |ps| ==> ps[i].id != ps[j].id)
    && (forall i, j :: 0 <= i < j < |ps| && ps[i].url != "" ==> ps[i].url != ps[j].url)
    && (forall i, j :: 0 <= i < j < |ps| ==> !(ps[i].isActive && ps[j].isActive))
  }

  /** The first active profile, or -1. */
  function ActiveIndex(ps: seq<Profile>): (r: int)
    ensures -1 <= r < |ps|
    ensures r >= 0 ==> ps[r].isActive
    ensures forall i :: 0 <= i < (if r < 0 then |ps| else r) ==> !ps[i].isActive
  {
    if ps == [] then -1
    else if ps[0].isActive then 0
    else var r := ActiveIndex(ps[1..]); if r < 0 then -1 else r + 1
  }

  function ActiveId(ps: seq<Profile>): string {
    if ActiveIndex(ps) < 0 then "" else ps[ActiveIndex(ps)].id
  }

  function ActiveContent(ps: seq<Profile>): string {
    if ActiveIndex(ps) < 0 then "" else ps[ActiveIndex(ps)].content
  }

  /** The first profile with this id, or -1. */
  function IndexOfId(ps: seq<Profile>, id: string): (r: int)
    ensures -1 <= r < |ps|
    ensures r >= 0 ==> ps[r].id == id
    ensures forall i :: 0 <= i < (if r < 0 then |ps| else r) ==> ps[i].id != id
  {
    if ps == [] then -1
    else if ps[0].id == id then 0
    else var r := IndexOfId(ps[1..], id); if r < 0 then -1 else r + 1
  }

  function IndexOfUrl(ps: seq<Profile>, url: string): (r: int)
    ensures -1 <= r < |ps|
    ensures r >= 0 ==> ps[r].url == url
    ensures forall i :: 0 <= i < (if r < 0 then |ps| else r) ==> ps[i].url != url
  {
    if ps == [] then -1
    else if ps[0].url == url then 0
    else var r := IndexOfUrl(ps[1..], url); if r < 0 then -1 else r + 1
  }

  lemma {:induction false} ActiveIndexIs(ps: seq<Profile>, k: nat)
    requires Good(ps) && k < |ps| && ps[k].isActive
    ensures ActiveIndex(ps) == k
  {
    var r := ActiveIndex(ps);
    assert r >= 0;
  }

  /** setActive: exactly the named profile is active; none when the id is unknown. */
  function Activated(ps: seq<Profile>, id: string): (r: seq<Profile>)
    ensures |r| == |ps|
    ensures forall i :: 0 <= i < |ps| ==> r[i] == ps[i].(isActive := ps[i].id == id)
  {
    seq(|ps|, i requires 0 <= i < |ps| => ps[i].(isActive := ps[i].id == id))
  }

  function Removed(ps: seq<Profile>, k: nat): seq<Profile>
    requires k < |ps|
  {
    ps[..k] + ps[k + 1..]
  }

  function Refreshed(p: Profile, name: string, content: string, info: Info, now: int): Profile {
    var q := p.(name := name, content := content, lastUpdated := now);
    if info.valid then q.(totalGB := info.totalGB, usedGB := info.usedGB, remainingDays := info.remainingDays) else q
  }

  /** The profiles whose id is at least as long as `id`: they are all an extension of it can still meet. */
  function LongIds(ps: seq<Profile>, id: string): set<nat> {
    set i: nat | i < |ps| && |ps[i].id| >= |id|
  }

  lemma {:induction false} LongIdsShrink(ps: seq<Profile>, id: string)
    requires HasId(ps, id)
    ensures LongIds(ps, id + "0") < LongIds(ps, id)
    ensures |LongIds(ps, id + "0")| < |LongIds(ps, id)|
  {
    var i :| 0 <= i < |ps| && ps[i].id == id;
    var small, big := LongIds(ps, id + "0"), LongIds(ps, id);
    assert i in big && i !in small;
    assert small <= big - {i};
    CardinalityGrows(small, big - {i});
  }

  lemma {:induction false} CardinalityGrows(a: set<nat>, b: set<nat>)
    requires a <= b
    ensures |a| <= |b|
  {
    assert b == a + (b - a);
  }

  /** The first of id, id0, id00, ... that no profile has. */
  function FreeId(ps: seq<Profile>, id: string): (r: string)
    ensures !HasId(ps, r) && |r| >= |id|
    decreases |LongIds(ps, id)|
  {
    if HasId(ps, id) then
      LongIdsShrink(ps, id);
      FreeId(ps, id + "0")
    else id
  }

  /** The search extends the id at most once per profile. */
  lemma {:induction false} FreeIdIsNear(ps: seq<Profile>, id: string)
    ensures |FreeId(ps, id)| <= |id| + |LongIds(ps, id)|
    ensures |LongIds(ps, id)| <= |ps|
    decreases |LongIds(ps, id)|
  {
    IndicesBound(|ps|, LongIds(ps, id));
    if HasId(ps, id) {
      LongIdsShrink(ps, id);
      FreeIdIsNear(ps, id + "0");
    }
  }

  lemma {:induction false} IndicesBound(n: nat, s: set<nat>)
    requires forall i :: i in s ==> i < n
    ensures |s| <= n
  {
    if n == 0 {
      assert s == {};
    } else {
      IndicesBound(n - 1, s - {n - 1});
      assert s == (s - {n - 1}) + (s * {n - 1});
    }
  }

  function NewProfile(ps: seq<Profile>, url: string, name: string, content: string, info: Info, now: nat): Profile {
    Profile(FreeId(ps, Print(now)), name, url, content, ActiveId(ps) == "",
            info.totalGB, info.usedGB, info.remainingDays, now)
  }

  /** storeProfile: a profile with this URL is refreshed in place, anything else is appended. */
  function Stored(ps: seq<Profile>, url: string, name: string, content: string, info: Info, now: nat): seq<Profile> {
    var k := if url == "" then -1 else IndexOfUrl(ps, url);
    if k >= 0 then ps[k := Refreshed(ps[k], name, content, info, now)]
    else ps + [NewProfile(ps, url, name, content, info, now)]
  }

  lemma {:induction false} ActivatedIsGood(ps: seq<Profile>, id: string)
    requires Good(ps)
    ensures Good(Activated(ps, id))
    ensures ActiveId(Activated(ps, id)) == if HasId(ps, id) then id else ""
  {
    var r := Activated(ps, id);
    assert forall i :: 0 <= i < |ps| ==> r[i].id == ps[i].id && r[i].url == ps[i].url;
    if HasId(ps, id) {
      var k :| 0 <= k < |ps| && ps[k].id == id;
      assert r[k].isActive;
      ActiveIndexIs(r, k);
    }
  }

  /** Where row i of the shortened list was before. */
  function Before(k: nat, i: nat): nat {
    if i < k then i else i + 1
  }

  predicate Compatible(p: Profile, q: Profile) {
    p.id != q.id && (p.url != "" ==> p.url != q.url) && !(p.isActive && q.isActive)
  }

  lemma {:induction false} GoodIsPairwise(ps: seq<Profile>)
    ensures Good(ps) <==>
      && (forall i :: 0 <= i < |ps| ==> ps[i].id != "")
      && (forall i, j :: 0 <= i < j < |ps| ==> Compatible(ps[i], ps[j]))
  {
  }

  lemma {:induction false} RemovedStaysGood(ps: seq<Profile>, k: nat)
    requires Good(ps) && k < |ps|
    ensures Good(Removed(ps, k))
  {
    var r := Removed(ps, k);
    GoodIsPairwise(ps);
    GoodIsPairwise(r);
    hide Good, Compatible;
    forall i, j | 0 <= i < j < |r| ensures Compatible(r[i], r[j]) {
      assert r[i] == ps[Before(k, i)] && r[j] == ps[Before(k, j)];
    }
  }

  lemma {:induction false} RemovedIsGood(ps: seq<Profile>, k: nat)
    requires Good(ps) && k < |ps|
    ensures Good(Removed(ps, k))
    ensures ps[k].isActive ==> ActiveId(Removed(ps, k)) == "" && ActiveIndex(Removed(ps, k)) == -1
    ensures !ps[k].isActive ==>
      ActiveId(Removed(ps, k)) == ActiveId(ps) && ActiveContent(Removed(ps, k)) == ActiveContent(ps)
  {
    RemovedStaysGood(ps, k);
    var r, a := Removed(ps, k), ActiveIndex(ps);
    if ps[k].isActive {
      ActiveIndexIs(ps, k);
      forall i | 0 <= i < |r| ensures !r[i].isActive {
        assert r[i] == ps[Before(k, i)];
      }
      hide Good;
    } else if a >= 0 {
      var b := if a < k then a else a - 1;
      assert r[b] == ps[a];
      ActiveIndexIs(r, b);
      hide Good;
    } else {
      hide Good;
      forall i | 0 <= i < |r| ensures !r[i].isActive {
        assert r[i] == ps[Before(k, i)];
      }
    }
  }

  lemma {:induction false} EditIsGood(ps: seq<Profile>, k: nat, p: Profile)
    requires Good(ps) && k < |ps|
    requires p.id == ps[k].id && p.url == ps[k].url && p.isActive == ps[k].isActive
    ensures Good(ps[k := p]) && ActiveId(ps[k := p]) == ActiveId(ps)
    ensures !p.isActive || p.content == ps[k].content ==> ActiveContent(ps[k := p]) == ActiveContent(ps)
  {
    var r, a := ps[k := p], ActiveIndex(ps);
    assert forall i :: 0 <= i < |r| ==> r[i].id == ps[i].id && r[i].url == ps[i].url && r[i].isActive == ps[i].isActive;
    if a >= 0 {
      ActiveIndexIs(r, a);
    }
  }

  lemma {:induction false} AppendStaysGood(ps: seq<Profile>, p: Profile)
    requires Good(ps) && p.id != "" && !HasId(ps, p.id) && (p.url != "" ==> !HasUrl(ps, p.url))
    requires p.isActive <==> ActiveId(ps) == ""
    ensures Good(ps + [p])
  {
    var r := ps + [p];
    assert ActiveIndex(ps) >= 0 ==> ps[ActiveIndex(ps)].id != "";
    GoodIsPairwise(ps);
    GoodIsPairwise(r);
    hide Good;
    forall i, j | 0 <= i < j < |r| ensures Compatible(r[i], r[j]) {
      assert r[i] == ps[i] && r[j] == if j < |ps| then ps[j] else p;
    }
  }

  lemma {:induction false} AppendIsGood(ps: seq<Profile>, p: Profile)
    requires Good(ps) && p.id != "" && !HasId(ps, p.id) && (p.url != "" ==> !HasUrl(ps, p.url))
    requires p.isActive <==> ActiveId(ps) == ""
    ensures Good(ps + [p])
    ensures ActiveId(ps + [p]) == if p.isActive then p.id else ActiveId(ps)
    ensures !p.isActive ==> ActiveContent(ps + [p]) == ActiveContent(ps)
  {
    AppendStaysGood(ps, p);
    var r, a := ps + [p], ActiveIndex(ps);
    assert a >= 0 ==> ps[a].id != "";
    var k := if a >= 0 then a else |ps|;
    assert r[k] == if a >= 0 then ps[a] else p;
    ActiveIndexIs(r, k);
    hide Good, HasId, HasUrl;
  }

  lemma {:induction false} StoredIsGood(ps: seq<Profile>, url: string, name: string, content: string, info: Info, now: nat)
    requires Good(ps)
    ensures Good(Stored(ps, url, name, content, info, now))
    ensures var r := Stored(ps, url, name, content, info, now);
            ActiveId(r) == if ActiveId(ps) == "" && |r| > |ps| then r[|ps|].id else ActiveId(ps)
  {
    var k := if url == "" then -1 else IndexOfUrl(ps, url);
    if k >= 0 {
      EditIsGood(ps, k, Refreshed(ps[k], name, content, info, now));
    } else {
      AppendIsGood(ps, NewProfile(ps, url, name, content, info, now));
    }
  }

  /** A downloaded profile: the given name, content and time; its numbers if the download brought any; the rest as it was. */
  predicate IsRefreshOf(q: Profile, p: Profile, name: string, content: string, info: Info, now: int) {
    && q.name == name && q.content == content && q.lastUpdated == now
    && q.id == p.id && q.url == p.url && q.isActive == p.isActive
    && (info.valid ==> q.totalGB == info.totalGB && q.usedGB == info.usedGB && q.remainingDays == info.remainingDays)
    && (!info.valid ==> q.totalGB == p.totalGB && q.usedGB == p.usedGB && q.remainingDays == p.remainingDays)
  }

  /** An added profile: as given, under an id of its own made from the time, active exactly when no other is. */
  predicate IsAddition(q: Profile, ps: seq<Profile>, url: string, name: string, content: string, info: Info, now: nat) {
    && q.url == url && q.name == name && q.content == content && q.lastUpdated == now
    && q.totalGB == info.totalGB && q.usedGB == info.usedGB && q.remainingDays == info.remainingDays
    && !HasId(ps, q.id) && Print(now) <= q.id
    && (q.isActive <==> forall i :: 0 <= i < |ps| ==> !ps[i].isActive)
  }

  /** What storing a profile changes, and that it changes nothing else. */
  ghost predicate WasStored(before: seq<Profile>, after: seq<Profile>,
      url: string, name: string, content: string, info: Info, now: nat)
  {
    if url != "" && HasUrl(before, url) then
      |after| == |before| &&
      exists k: nat :: k < |before| && before[k].url == url
        && IsRefreshOf(after[k], before[k], name, content, info, now)
        && forall i :: 0 <= i < |before| && i != k ==> after[i] == before[i]
    else
      |after| == |before| + 1 && after[..|before|] == before
      && IsAddition(after[|before|], before, url, name, content, info, now)
  }

  lemma {:induction false} FreeIdExtends(ps: seq<Profile>, id: string)
    ensures id <= FreeId(ps, id)
    decreases |LongIds(ps, id)|
  {
    if HasId(ps, id) {
      LongIdsShrink(ps, id);
      FreeIdExtends(ps, id + "0");
      assert id <= id + "0";
    }
  }

  function Zeros(n: nat): string {
    seq(n, _ => '0')
  }

  /** The id found is the first unused one: every shorter extension was taken. */
  lemma {:induction false} FreeIdIsFirst(ps: seq<Profile>, id: string) returns (n: nat)
    ensures FreeId(ps, id) == id + Zeros(n) && !HasId(ps, id + Zeros(n))
    ensures forall m: nat :: m < n ==> HasId(ps, id + Zeros(m))
    decreases |LongIds(ps, id)|
  {
    if HasId(ps, id) {
      LongIdsShrink(ps, id);
      var rest := FreeIdIsFirst(ps, id + "0");
      n := rest + 1;
      forall m: nat ensures id + "0" + Zeros(m) == id + Zeros(m + 1) {
        assert "0" + Zeros(m) == Zeros(m + 1);
      }
      assert id + Zeros(0) == id;
      forall m: nat | m < n ensures HasId(ps, id + Zeros(m)) {
        if m > 0 { assert id + "0" + Zeros(m - 1) == id + Zeros(m); }
      }
    } else {
      n := 0;
      assert id + Zeros(0) == id;
    }
  }

  lemma {:induction false} StoredExactly(ps: seq<Profile>, url: string, name: string, content: string, info: Info, now: nat)
    requires Good(ps)
    ensures WasStored(ps, Stored(ps, url, name, content, info, now), url, name, content, info, now)
  {
    var k := if url == "" then -1 else IndexOfUrl(ps, url);
    if k >= 0 {
      assert IsRefreshOf(Refreshed(ps[k], name, content, info, now), ps[k], name, content, info, now);
    } else {
      FreeIdExtends(ps, Print(now));
      assert ActiveIndex(ps) >= 0 ==> ps[ActiveIndex(ps)].id != "";
      hide FreeId, Print, Good;
      assert IsAddition(NewProfile(ps, url, name, content, info, now), ps, url, name, content, info, now);
    }
  }

  /** What deleting changes: the profiles with this id are gone, the others stay in order. */
  ghost predicate WasDeleted(before: seq<Profile>, after: seq<Profile>, id: string) {
    if !HasId(before, id) then after == before
    else
      !HasId(after, id) && |after| == |before| - 1 &&
      exists k: nat :: k < |before| && before[k].id == id
        && (forall i :: 0 <= i < k ==> after[i] == before[i])
        && (forall i :: k < i < |before| ==> after[i - 1] == before[i])
  }

  lemma {:induction false} OthersDiffer(ps: seq<Profile>, k: nat)
    requires Good(ps) && k < |ps|
    ensures forall i :: 0 <= i < |ps| && i != k ==> ps[i].id != ps[k].id
  {
  }

  lemma {:induction false} DeletedExactly(ps: seq<Profile>, id: string)
    requires Good(ps)
    ensures var k := IndexOfId(ps, id); WasDeleted(ps, if k < 0 then ps else Removed(ps, k), id)
  {
    hide Good;
    var k := IndexOfId(ps, id);
    if k >= 0 {
      OthersDiffer(ps, k);
      DeletedAt(ps, k);
    }
  }

  lemma {:induction false} DeletedAt(ps: seq<Profile>, k: nat)
    requires k < |ps| && forall i :: 0 <= i < |ps| && i != k ==> ps[i].id != ps[k].id
    ensures WasDeleted(ps, Removed(ps, k), ps[k].id)
  {
    var r := Removed(ps, k);
    forall j | 0 <= j < |r| ensures r[j].id != ps[k].id {
      assert r[j] == ps[if j < k then j else j + 1];
    }
    forall i | k < i < |ps| ensures r[i - 1] == ps[i] {
    }
    assert HasId(ps, ps[k].id);
  }

  /** The profile that is active is the one whose content counts. */
  lemma {:induction false} ActiveContentIs(ps: seq<Profile>, k: nat)
    requires Good(ps) && k < |ps| && ps[k].isActive
    ensures ActiveContent(ps) == ps[k].content && ActiveId(ps) == ps[k].id
  {
    ActiveIndexIs(ps, k);
  }

  /** Stored documents. */
  datatype Json =
    | JNull | JBool(b: bool) | JNumber(x: real) | JString(s: string)
    | JArray(items: seq<Json>) | JObject(fields: map<string, Json>)

  function Field(obj: Json, key: string): Json {
    if obj.JObject? && key in obj.fields then obj.fields[key] else JNull
  }

  function AsString(v: Json): string {
    if v.JString? then v.s else ""
  }

  function AsBool(v: Json): bool {
    v.JBool? && v.b
  }

  function AsReal(v: Json): real {
    if v.JNumber? then v.x else 0.0
  }

  /** QJsonValue::toInt: a whole number in the range of int, else the default. */
  function AsInt(v: Json, default_: int): int {
    if v.JNumber? && v.x.Floor as real == v.x && -INT_MAX - 1 <= v.x.Floor <= INT_MAX then v.x.Floor else default_
  }

  /** static_cast<qint64> of a double. */
  function Truncate(x: real): int {
    if x >= 0.0 then x.Floor else -((-x).Floor)
  }

  function AsItems(v: Json): seq<Json> {
    if v.JArray? then v.items else []
  }

  function ToJson(p: Profile): Json {
    JObject(map[
      "id" := JString(p.id), "name" := JString(p.name), "url" := JString(p.url), "content" := JString(p.content),
      "isActive" := JBool(p.isActive), "totalTrafficGB" := JNumber(p.totalGB), "usedTrafficGB" := JNumber(p.usedGB),
      "remainingDays" := JNumber(p.remainingDays as real), "lastUpdated" := JNumber(p.lastUpdated as real)])
  }

  function FromJson(v: Json): Profile {
    Profile(AsString(Field(v, "id")), AsString(Field(v, "name")), AsString(Field(v, "url")), AsString(Field(v, "content")),
      AsBool(Field(v, "isActive")), AsReal(Field(v, "totalTrafficGB")), AsReal(Field(v, "usedTrafficGB")),
      AsInt(Field(v, "remainingDays"), -1), Truncate(AsReal(Field(v, "lastUpdated"))))
  }

  function FromItems(items: seq<Json>): seq<Profile> {
    if items == [] then []
    else
      var before, p := FromItems(items[..|items| - 1]), FromJson(items[|items| - 1]);
      if p.id == "" then before else before + [p]
  }

  function ToItems(ps: seq<Profile>): (items: seq<Json>)
    ensures |items| == |ps| && forall i :: 0 <= i < |ps| ==> items[i] == ToJson(ps[i])
  {
    seq(|ps|, i requires 0 <= i < |ps| => ToJson(ps[i]))
  }

  /** The profiles file: missing, not JSON, or a document. */
  datatype Storage = NoFile | NotJson | Document(root: Json)

  function Save(ps: seq<Profile>): Storage {
    Document(JObject(map["profiles" := JArray(ToItems(ps))]))
  }

  /** load: an array, or an object holding one; entries without an id are dropped. */
  function Load(file: Storage): seq<Profile> {
    match file
    case NoFile => []
    case NotJson => []
    case Document(root) => FromItems(if root.JArray? then root.items else AsItems(Field(root, "profiles")))
  }

  /** Numbers a document carries exactly. */
  predicate IsStorable(p: Profile) {
    -INT_MAX - 1 <= p.remainingDays <= INT_MAX
  }

  lemma {:induction false} JsonRoundTrip(p: Profile)
    requires IsStorable(p)
    ensures FromJson(ToJson(p)) == p
  {
  }

  lemma {:induction false} ItemsRoundTrip(ps: seq<Profile>)
    requires forall i :: 0 <= i < |ps| ==> IsStorable(ps[i]) && ps[i].id != ""
    ensures FromItems(ToItems(ps)) == ps
  {
    hide FromJson, ToJson;
    if ps != [] {
      var n := |ps| - 1;
      assert ToItems(ps)[..n] == ToItems(ps[..n]);
      ItemsRoundTrip(ps[..n]);
      JsonRoundTrip(ps[n]);
      assert ps == ps[..n] + [ps[n]];
    }
  }

  /** What the user and finished downloads do to the list. */
  datatype Edit =
    | Activate(id: string) | Delete(id: string) | Rename(id: string, name: string)
    | Store(url: string, name: string, content: string, info: Info, now: nat)

  function Edited(ps: seq<Profile>, e: Edit): seq<Profile> {
    match e
    case Activate(id) => Activated(ps, id)
    case Delete(id) => var k := IndexOfId(ps, id); if k < 0 then ps else Removed(ps, k)
    case Rename(id, name) => var k := IndexOfId(ps, id); if k < 0 || name == "" then ps else ps[k := ps[k].(name := name)]
    case Store(url, name, content, info, now) => Stored(ps, url, name, content, info, now)
  }

  function EditedAll(ps: seq<Profile>, edits: seq<Edit>): seq<Profile> {
    if edits == [] then ps else Edited(EditedAll(ps, edits[..|edits| - 1]), edits[|edits| - 1])
  }

  predicate AllStorable(ps: seq<Profile>) {
    forall i :: 0 <= i < |ps| ==> IsStorable(ps[i])
  }

  lemma {:induction false} RemovedStaysStorable(ps: seq<Profile>, k: nat)
    requires AllStorable(ps) && k < |ps|
    ensures AllStorable(Removed(ps, k))
  {
  }

  lemma {:induction false} EditStaysGood(ps: seq<Profile>, e: Edit)
    requires Good(ps) && AllStorable(ps)
    requires e.Store? ==> -INT_MAX - 1 <= e.info.remainingDays <= INT_MAX
    ensures Good(Edited(ps, e)) && AllStorable(Edited(ps, e))
  {
    hide Good, FreeId, ActiveId;
    match e
    case Activate(id) => ActivatedIsGood(ps, id);
    case Delete(id) =>
      var k := IndexOfId(ps, id);
      if k >= 0 { RemovedStaysGood(ps, k); }
    case Rename(id, name) =>
      var k := IndexOfId(ps, id);
      if k >= 0 { EditIsGood(ps, k, ps[k].(name := name)); }
    case Store(url, name, content, info, now) => StoredIsGood(ps, url, name, content, info, now);
  }

  /** Whatever is done in whatever order, the list stays good, and saving and loading it loses nothing. */
  lemma {:induction false} EveryEditKeepsGood(ps: seq<Profile>, edits: seq<Edit>)
    requires Good(ps) && AllStorable(ps)
    requires forall i :: 0 <= i < |edits| && edits[i].Store? ==> -INT_MAX - 1 <= edits[i].info.remainingDays <= INT_MAX
    ensures Good(EditedAll(ps, edits)) && AllStorable(EditedAll(ps, edits))
    ensures Load(Save(EditedAll(ps, edits))) == EditedAll(ps, edits)
    decreases |edits|
  {
    hide Good, Edited, Load, Save;
    if edits != [] {
      EveryEditKeepsGood(ps, edits[..|edits| - 1]);
      EditStaysGood(EditedAll(ps, edits[..|edits| - 1]), edits[|edits| - 1]);
    }
    SaveLoadRoundTrip(EditedAll(ps, edits));
  }

  /** The saved file, loaded again, is the list that was saved. */
  lemma {:induction false} SaveLoadRoundTrip(ps: seq<Profile>)
    requires Good(ps) && forall i :: 0 <= i < |ps| ==> IsStorable(ps[i])
    ensures Load(Save(ps)) == ps
  {
    ItemsRoundTrip(ps);
  }

  /** The stored form: every field under its name. */
  lemma {:induction false} FieldsAreNamed(p: Profile)
    ensures var o := ToJson(p);
      && Field(o, "id") == JString(p.id) && Field(o, "name") == JString(p.name)
      && Field(o, "url") == JString(p.url) && Field(o, "content") == JString(p.content)
      && Field(o, "isActive") == JBool(p.isActive)
      && Field(o, "totalTrafficGB") == JNumber(p.totalGB) && Field(o, "usedTrafficGB") == JNumber(p.usedGB)
      && Field(o, "remainingDays") == JNumber(p.remainingDays as real)
      && Field(o, "lastUpdated") == JNumber(p.lastUpdated as real)
  {
  }

  /** A bare list of entries is read like one under "profiles"; anything else gives no profile. */
  lemma {:induction false} OtherFiles(items: seq<Json>, root: Json)
    ensures Load(Document(JArray(items))) == Load(Document(JObject(map["profiles" := JArray(items)])))
    ensures !root.JArray? && !root.JObject? ==> Load(Document(root)) == []
    ensures Load(NoFile) == [] && Load(NotJson) == []
  {
  }

  /** An entry without an id is dropped; one that lacks the rest is read with nothing in it. */
  lemma {:induction false} BareEntries(id: string)
    ensures Load(Document(JArray([JObject(map["id" := JString(id)])])))
         == if id == "" then [] else [Profile(id, "", "", "", false, 0.0, 0.0, -1, 0)]
  {
    var o := JObject(map["id" := JString(id)]);
    assert FromJson(o) == Profile(id, "", "", "", false, 0.0, 0.0, -1, 0);
    assert [o][..0] == [] && FromItems([]) == [];
    assert FromItems([o]) == if id == "" then [] else [FromJson(o)];
  }

  /** Numbers: days must be whole and in range, else unknown; a time loses its fraction, towards zero. */
  lemma {:induction false} NumbersAreRead()
    ensures AsInt(JNumber(7.0), -1) == 7 && AsInt(JNumber(7.5), -1) == -1 && AsInt(JNumber(2147483648.0), -1) == -1
    ensures AsInt(JString("7"), -1) == -1 && AsReal(JString("7")) == 0.0
    ensures Truncate(7.5) == 7 && Truncate(-7.5) == -7
  {
    assert (7.5).Floor == 7 && (7.0).Floor == 7 && (2147483648.0).Floor == 2147483648;
  }
}
