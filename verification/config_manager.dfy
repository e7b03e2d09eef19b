/**
 * The change classifier and the apply coordinator of `ConfigManager`.
 *
 * `Diff` sorts the differences between the running configuration and a new
 * one into a hot list (swappable into running workers) and a warm list
 * (workers are created, removed or restarted). `Apply` walks both lists
 * against the map of camera workers and then makes the new configuration
 * the running one.
 *
 * The source iterates Python sets of camera keys, whose order is
 * unspecified; `Diff` therefore picks keys in an arbitrary order and its
 * contract speaks of membership and counts only.
 */
module ConfigManager {
  import opened Wrappers
  import opened Seqs
  import opened Schema
  import opened Worker

  // ---------------------------------------------------------------------------
  // Change entries
  // ---------------------------------------------------------------------------

  datatype Action = Add | Remove

  /** One entry of a change list: `{"component": ..., "action": ...}` or `{"component": ..., "field": ...}`. */
  datatype Change = Change(component: string, action: Option<Action>, field: Option<string>)

  datatype Changes = Changes(hot: seq<Change>, warm: seq<Change>)

  const MqttComponent := "mqtt"
  const CameraPrefix := "camera:"
  const SourceField := "ffmpeg/enabled"
  const DataField := "zones/detection/retention"

  function CameraComponent(key: string): string {
    CameraPrefix + key
  }

  function MqttChange(): Change {
    Change(MqttComponent, None, None)
  }

  function RemoveChange(key: string): Change {
    Change(CameraComponent(key), Some(Remove), None)
  }

  function AddChange(key: string): Change {
    Change(CameraComponent(key), Some(Add), None)
  }

  /** Warm entry for a camera whose capture source or enabled flag changed. */
  function SourceChange(key: string): Change {
    Change(CameraComponent(key), None, Some(SourceField))
  }

  /** Hot entry for a camera whose zones, detection or retention changed. */
  function DataChange(key: string): Change {
    Change(CameraComponent(key), None, Some(DataField))
  }

  // ---------------------------------------------------------------------------
  // Reading the camera key back out of a component string
  // ---------------------------------------------------------------------------

  predicate StartsWith(s: string, prefix: string) {
    |prefix| <= |s| && s[..|prefix|] == prefix
  }

  /** `s.split(sep, 1)[1]`: the text after the first `sep`, or None where Python raises IndexError. */
  function AfterFirst(s: string, sep: char): Option<string> {
    if |s| == 0 then None
    else if s[0] == sep then Some(s[1..])
    else AfterFirst(s[1..], sep)
  }

  /** The camera key of a component, as `apply` extracts it; None for the broker component. */
  function CameraKey(component: string): Option<string> {
    if StartsWith(component, CameraPrefix) then AfterFirst(component, ':') else None
  }

  lemma {:induction false} AfterFirstSkips(p: string, sep: char, rest: string)
    requires sep !in p
    ensures AfterFirst(p + [sep] + rest, sep) == Some(rest)
  {
    if p == [] {
      assert p + [sep] + rest == [sep] + rest;
    } else {
      assert (p + [sep] + rest)[1..] == p[1..] + [sep] + rest;
      AfterFirstSkips(p[1..], sep, rest);
    }
  }

  /**
   * Splitting a camera component at its first colon recovers the key, even
   * when the key itself contains colons.
   */
  lemma CameraKeyOfComponent(key: string)
    ensures CameraKey(CameraComponent(key)) == Some(key)
  {
    assert CameraComponent(key) == "camera" + [':'] + key;
    AfterFirstSkips("camera", ':', key);
    assert CameraComponent(key)[..|CameraPrefix|] == CameraPrefix;
  }

  /** Every component carries the key it was made from; the broker component carries none. */
  lemma ComponentKeys()
    ensures CameraKey(MqttComponent) == None
    ensures forall k :: CameraKey(CameraComponent(k)) == Some(k)
  {
    forall k
      ensures CameraKey(CameraComponent(k)) == Some(k)
    {
      CameraKeyOfComponent(k);
    }
  }

  // ---------------------------------------------------------------------------
  // Classification
  // ---------------------------------------------------------------------------

  /** Capture source or enabled flag differ: the warm tier. */
  predicate SourceDiffers(o: CameraConfig, n: CameraConfig) {
    o.enabled != n.enabled || o.ffmpeg != n.ffmpeg
  }

  /** Zones, detection or retention differ: the hot tier. */
  predicate DataDiffers(o: CameraConfig, n: CameraConfig) {
    o.zones != n.zones || o.detection != n.detection || o.retention != n.retention
  }

  /** The hot entries between `before` and `after`, as a set. */
  function HotChanges(before: RootConfig, after: RootConfig): set<Change> {
    (if after.mqtt != before.mqtt then {MqttChange()} else {})
    + set k | k in before.cameras && k in after.cameras && DataDiffers(before.cameras[k], after.cameras[k]) :: DataChange(k)
  }

  /** The warm entries between `before` and `after`, as a set. */
  function WarmChanges(before: RootConfig, after: RootConfig): set<Change> {
    (set k | k in before.cameras && k !in after.cameras :: RemoveChange(k))
    + (set k | k in after.cameras && k !in before.cameras :: AddChange(k))
    + set k | k in before.cameras && k in after.cameras && SourceDiffers(before.cameras[k], after.cameras[k]) :: SourceChange(k)
  }

  /** The hot set holds the broker entry exactly when the broker settings differ, and a camera's data entry exactly when that camera is in both and its data differs. */
  lemma HotMembership(before: RootConfig, after: RootConfig)
    ensures MqttChange() in HotChanges(before, after) <==> before.mqtt != after.mqtt
    ensures forall k :: DataChange(k) in HotChanges(before, after) <==>
      k in before.cameras && k in after.cameras && DataDiffers(before.cameras[k], after.cameras[k])
  {
    ComponentKeys();
  }

  /**
   * The warm set holds `remove` for each key only in `before`, `add` for each
   * key only in `after`, and the source entry for each key in both whose
   * source or enabled flag differs.
   */
  lemma WarmMembership(before: RootConfig, after: RootConfig)
    ensures forall k :: RemoveChange(k) in WarmChanges(before, after) <==> k in before.cameras && k !in after.cameras
    ensures forall k :: AddChange(k) in WarmChanges(before, after) <==> k !in before.cameras && k in after.cameras
    ensures forall k :: SourceChange(k) in WarmChanges(before, after) <==>
      k in before.cameras && k in after.cameras && SourceDiffers(before.cameras[k], after.cameras[k])
  {
    ComponentKeys();
  }

  /** What a hot entry is: the broker entry, or the data entry of a camera present on both sides. */
  lemma HotEntryShape(before: RootConfig, after: RootConfig, c: Change)
    requires c in HotChanges(before, after)
    ensures CameraKey(c.component).None? ==> c == MqttChange() && before.mqtt != after.mqtt
    ensures CameraKey(c.component).Some? ==>
      var k := CameraKey(c.component).value;
      c == DataChange(k) && k in before.cameras && k in after.cameras && DataDiffers(before.cameras[k], after.cameras[k])
  {
    ComponentKeys();
  }

  /** What a warm entry is: a remove, an add or a source change of one camera. */
  lemma WarmEntryShape(before: RootConfig, after: RootConfig, c: Change)
    requires c in WarmChanges(before, after)
    ensures CameraKey(c.component).Some?
    ensures var k := CameraKey(c.component).value;
      || (c == RemoveChange(k) && k in before.cameras && k !in after.cameras)
      || (c == AddChange(k) && k !in before.cameras && k in after.cameras)
      || (c == SourceChange(k) && k in before.cameras && k in after.cameras && SourceDiffers(before.cameras[k], after.cameras[k]))
  {
    ComponentKeys();
  }

  /** `d` lists each hot and each warm entry between `before` and `after` exactly once, in some order. */
  predicate Classifies(before: RootConfig, after: RootConfig, d: Changes) {
    && NoDup(d.hot) && Elems(d.hot) == HotChanges(before, after)
    && NoDup(d.warm) && Elems(d.warm) == WarmChanges(before, after)
  }

  /** The running configuration the manager holds. */
  datatype Manager = Manager(running: RootConfig)

  /** A manager starts from the given configuration, or from the default one. */
  function NewManager(initial: Option<RootConfig>): (m: Manager)
    ensures initial.Some? ==> m.running == initial.value
    ensures initial.None? ==> m.running == DefaultRoot()
  {
    Manager(initial.GetOr(DefaultRoot()))
  }

  /** `ConfigManager.validate`: the schema's verdict on `cfg`. */
  function ValidateConfig(m: Manager, cfg: RootConfig): (v: Verdict)
    ensures v.Accepted? <==> ValidRoot(cfg)
  {
    Validate(cfg)
  }

  lemma ComponentInjective(a: string, b: string)
    requires a != b
    ensures CameraComponent(a) != CameraComponent(b)
  {
    CameraKeyOfComponent(a);
    CameraKeyOfComponent(b);
  }

  /** Lists `f(k)` once for each key of `keys`, visiting the keys in an arbitrary order. */
  method CollectEach(keys: set<string>, f: string -> Change) returns (s: seq<Change>)
    requires forall a, b :: a != b ==> f(a) != f(b)
    ensures NoDup(s)
    ensures Elems(s) == set k | k in keys :: f(k)
  {
    s := [];
    var todo := keys;
    while todo != {}
      invariant todo <= keys
      invariant NoDup(s)
      invariant forall c :: c in s ==> exists k :: k in keys - todo && c == f(k)
      invariant forall k :: k in keys - todo ==> f(k) in s
      decreases |todo|
    {
      var k :| k in todo;
      assert f(k) !in s;
      s := s + [f(k)];
      todo := todo - {k};
    }
  }

  /**
   * The per-camera loop of `diff` over keys present on both sides: two
   * independent checks, so one camera may get both a warm and a hot entry.
   */
  method ClassifyShared(before: RootConfig, after: RootConfig) returns (sources: seq<Change>, data: seq<Change>)
    ensures NoDup(sources) && NoDup(data)
    ensures Elems(sources) == set k | k in before.cameras && k in after.cameras && SourceDiffers(before.cameras[k], after.cameras[k]) :: SourceChange(k)
    ensures Elems(data) == set k | k in before.cameras && k in after.cameras && DataDiffers(before.cameras[k], after.cameras[k]) :: DataChange(k)
  {
    sources := [];
    data := [];
    var both := before.cameras.Keys * after.cameras.Keys;
    var todo := both;
    while todo != {}
      invariant todo <= both
      invariant NoDup(sources) && NoDup(data)
      invariant forall c :: c in sources ==> exists k :: k in both - todo && SourceDiffers(before.cameras[k], after.cameras[k]) && c == SourceChange(k)
      invariant forall k :: k in both - todo && SourceDiffers(before.cameras[k], after.cameras[k]) ==> SourceChange(k) in sources
      invariant forall c :: c in data ==> exists k :: k in both - todo && DataDiffers(before.cameras[k], after.cameras[k]) && c == DataChange(k)
      invariant forall k :: k in both - todo && DataDiffers(before.cameras[k], after.cameras[k]) ==> DataChange(k) in data
      decreases |todo|
    {
      var k :| k in todo;
      forall k' | k' != k
        ensures SourceChange(k') != SourceChange(k) && DataChange(k') != DataChange(k)
      {
        ComponentInjective(k', k);
      }
      var o := before.cameras[k];
      var n := after.cameras[k];
      assert SourceChange(k) !in sources && DataChange(k) !in data;
      if o.enabled != n.enabled || o.ffmpeg != n.ffmpeg {
        NoDupAppend(sources, SourceChange(k));
        sources := sources + [SourceChange(k)];
      }
      if o.zones != n.zones || o.detection != n.detection || o.retention != n.retention {
        NoDupAppend(data, DataChange(k));
        data := data + [DataChange(k)];
      }
      todo := todo - {k};
    }
  }

  lemma NoDupConcat(a: seq<Change>, b: seq<Change>)
    requires NoDup(a) && NoDup(b)
    requires forall c :: c in a ==> c !in b
    ensures NoDup(a + b)
  {
    forall i, j | 0 <= i < j < |a + b|
      ensures (a + b)[i] != (a + b)[j]
    {
      if i < |a| && j >= |a| {
        assert (a + b)[i] in a && (a + b)[j] in b;
      }
    }
  }

  /**
   * `ConfigManager.diff`: the broker check, then removals, additions, and
   * the two independent checks per camera present on both sides.
   */
  method Diff(m: Manager, after: RootConfig) returns (d: Changes)
    ensures Classifies(m.running, after, d)
  {
    var before := m.running;
    var hot: seq<Change> := [];
    if after.mqtt != before.mqtt {
      hot := hot + [MqttChange()];
    }
    forall a, b | a != b
      ensures RemoveChange(a) != RemoveChange(b) && AddChange(a) != AddChange(b)
    {
      ComponentInjective(a, b);
    }
    var removals := CollectEach(before.cameras.Keys - after.cameras.Keys, RemoveChange);
    var additions := CollectEach(after.cameras.Keys - before.cameras.Keys, AddChange);
    var sources, data := ClassifyShared(before, after);
    ComponentKeys();
    forall c | c in removals ensures c.action == Some(Remove) {
      assert c in Elems(removals);
    }
    forall c | c in additions ensures c.action == Some(Add) {
      assert c in Elems(additions);
    }
    forall c | c in sources ensures c.action == None {
      assert c in Elems(sources);
    }
    forall c | c in data ensures c.component != MqttComponent {
      assert c in Elems(data);
    }
    NoDupConcat(removals, additions);
    NoDupConcat(removals + additions, sources);
    NoDupConcat(hot, data);
    d := Changes(hot + data, removals + additions + sources);
    assert Elems(d.hot) == Elems(hot) + Elems(data);
    assert Elems(d.warm) == Elems(removals) + Elems(additions) + Elems(sources);
  }

  // ---------------------------------------------------------------------------
  // Properties of the classification
  // ---------------------------------------------------------------------------

  /**
   * Counted in the lists themselves: one broker entry iff the broker
   * settings differ, one `remove` per key only in `before`, one `add` per key
   * only in `after`, and for a key on both sides one source entry iff source
   * or enabled differ and, independently, one data entry iff zones,
   * detection or retention differ.
   */
  lemma DiffCounts(before: RootConfig, after: RootConfig, d: Changes)
    requires Classifies(before, after, d)
    ensures multiset(d.hot)[MqttChange()] == if before.mqtt != after.mqtt then 1 else 0
    ensures forall k :: multiset(d.warm)[RemoveChange(k)] == if k in before.cameras && k !in after.cameras then 1 else 0
    ensures forall k :: multiset(d.warm)[AddChange(k)] == if k !in before.cameras && k in after.cameras then 1 else 0
    ensures forall k :: multiset(d.warm)[SourceChange(k)] ==
                        if k in before.cameras && k in after.cameras && SourceDiffers(before.cameras[k], after.cameras[k]) then 1 else 0
    ensures forall k :: multiset(d.hot)[DataChange(k)] ==
                        if k in before.cameras && k in after.cameras && DataDiffers(before.cameras[k], after.cameras[k]) then 1 else 0
  {
    HotMembership(before, after);
    WarmMembership(before, after);
    forall c
      ensures multiset(d.hot)[c] == if c in HotChanges(before, after) then 1 else 0
      ensures multiset(d.warm)[c] == if c in WarmChanges(before, after) then 1 else 0
    {
      CountOfNoDup(d.hot, c);
      CountOfNoDup(d.warm, c);
    }
  }

  /** Two classifications of the same pair list the same entries, differing at most in order. */
  lemma ClassificationUnique(before: RootConfig, after: RootConfig, d1: Changes, d2: Changes)
    requires Classifies(before, after, d1) && Classifies(before, after, d2)
    ensures multiset(d1.hot) == multiset(d2.hot)
    ensures multiset(d1.warm) == multiset(d2.warm)
  {
    forall c
      ensures multiset(d1.hot)[c] == multiset(d2.hot)[c]
      ensures multiset(d1.warm)[c] == multiset(d2.warm)[c]
    {
      CountOfNoDup(d1.hot, c);
      CountOfNoDup(d2.hot, c);
      CountOfNoDup(d1.warm, c);
      CountOfNoDup(d2.warm, c);
      assert c in d1.hot <==> c in Elems(d1.hot);
      assert c in d2.hot <==> c in Elems(d2.hot);
      assert c in d1.warm <==> c in Elems(d1.warm);
      assert c in d2.warm <==> c in Elems(d2.warm);
    }
  }

  /** A configuration has no hot and no warm changes against itself. */
  lemma NoChangesAgainstSelf(cfg: RootConfig)
    ensures HotChanges(cfg, cfg) == {} && WarmChanges(cfg, cfg) == {}
  {
  }

  /** Diffing a configuration against itself yields two empty lists. */
  lemma DiffSelfEmpty(cfg: RootConfig, d: Changes)
    requires Classifies(cfg, cfg, d)
    ensures d == Changes([], [])
  {
    NoChangesAgainstSelf(cfg);
    EmptyElems(d.hot);
    EmptyElems(d.warm);
  }

  /** A camera can be classified in both tiers at once: its source and its zones changed together. */
  lemma BothTiersForOneCamera()
    ensures
      var src := FFmpegInput("rtsp://a", None, None, None, None);
      var o := DefaultCamera("c", src);
      var n := o.(ffmpeg := src.(url := "rtsp://b"), zones := [Zone("z", [])]);
      var before := RootConfig(DefaultMqtt(), map["c" := o]);
      var after := RootConfig(DefaultMqtt(), map["c" := n]);
      SourceChange("c") in WarmChanges(before, after) && DataChange("c") in HotChanges(before, after)
  {
    var src := FFmpegInput("rtsp://a", None, None, None, None);
    var o := DefaultCamera("c", src);
    var n := o.(ffmpeg := src.(url := "rtsp://b"), zones := [Zone("z", [])]);
    var before := RootConfig(DefaultMqtt(), map["c" := o]);
    var after := RootConfig(DefaultMqtt(), map["c" := n]);
    assert o.ffmpeg.url != n.ffmpeg.url;
    assert |o.zones| != |n.zones|;
    WarmMembership(before, after);
    HotMembership(before, after);
  }

  // ---------------------------------------------------------------------------
  // Applying a new configuration to the worker map
  // ---------------------------------------------------------------------------

  function Lookup(ws: map<string, Worker>, key: string): Option<Worker> {
    if key in ws then Some(ws[key]) else None
  }

  /**
   * Per camera key, the worker `apply` leaves behind: removed cameras lose
   * their worker; added cameras get a fresh, started worker (whatever their
   * enabled flag says); a camera on both sides that has a worker is
   * restarted on a source change, else updated in place on a data change,
   * else kept; every other key keeps what it had.
   */
  function Outcome(key: string, before: RootConfig, after: RootConfig, ws: map<string, Worker>): Option<Worker> {
    if key in before.cameras && key !in after.cameras then None
    else if key !in before.cameras && key in after.cameras then Some(Start(NewWorker(after.cameras[key])))
    else if key in before.cameras && key in after.cameras && key in ws then
      var o := before.cameras[key];
      var n := after.cameras[key];
      if SourceDiffers(o, n) then Some(GracefulRestart(ws[key], n))
      else if DataDiffers(o, n) then Some(ApplyUpdate(ws[key], n))
      else Some(ws[key])
    else Lookup(ws, key)
  }

  /** Worker map after the hot entries of `done` were processed. */
  function AfterHot(key: string, done: seq<Change>, ws: map<string, Worker>, after: RootConfig): Option<Worker> {
    if DataChange(key) in done && key in ws && key in after.cameras then Some(ApplyUpdate(ws[key], after.cameras[key]))
    else Lookup(ws, key)
  }

  /** Worker map after the warm entries of `done` were processed. */
  function AfterWarm(key: string, done: seq<Change>, ws: map<string, Worker>, after: RootConfig): Option<Worker> {
    if RemoveChange(key) in done then None
    else if AddChange(key) in done && key in after.cameras then Some(Start(NewWorker(after.cameras[key])))
    else if SourceChange(key) in done && key in ws && key in after.cameras then Some(GracefulRestart(ws[key], after.cameras[key]))
    else Lookup(ws, key)
  }

  /** Workers popped by the warm entries of `done`, in the state they were left in. */
  function RetiredAfter(key: string, done: seq<Change>, ws: map<string, Worker>): Option<Worker> {
    if RemoveChange(key) in done && key in ws then Some(Stop(ws[key])) else None
  }

  /** Processing an entry of camera `key` does not affect what another key's worker is. */
  lemma HotFrame(k: string, key: string, c: Change, done: seq<Change>, ws: map<string, Worker>, after: RootConfig)
    requires CameraKey(c.component) == Some(key) && k != key
    ensures AfterHot(k, done + [c], ws, after) == AfterHot(k, done, ws, after)
  {
    CameraKeyOfComponent(k);
    assert DataChange(k) != c;
  }

  lemma WarmFrame(k: string, key: string, c: Change, done: seq<Change>, ws: map<string, Worker>, after: RootConfig)
    requires CameraKey(c.component) == Some(key) && k != key
    ensures AfterWarm(k, done + [c], ws, after) == AfterWarm(k, done, ws, after)
    ensures RetiredAfter(k, done + [c], ws) == RetiredAfter(k, done, ws)
  {
    CameraKeyOfComponent(k);
    assert RemoveChange(k) != c && AddChange(k) != c && SourceChange(k) != c;
  }

  /** The broker entry does not affect any worker. */
  lemma MqttFrame(k: string, done: seq<Change>, ws: map<string, Worker>, after: RootConfig)
    ensures AfterHot(k, done + [MqttChange()], ws, after) == AfterHot(k, done, ws, after)
  {
    CameraKeyOfComponent(k);
    assert CameraKey(MqttComponent) == None;
    assert DataChange(k) != MqttChange();
  }

  /** A camera has at most one warm entry, so none of its entries precedes the one at `i`. */
  lemma OnlyWarmEntryOfKey(before: RootConfig, after: RootConfig, warm: seq<Change>, i: int, key: string)
    requires NoDup(warm) && Elems(warm) == WarmChanges(before, after)
    requires 0 <= i < |warm| && CameraKey(warm[i].component) == Some(key)
    ensures RemoveChange(key) !in warm[..i]
    ensures AddChange(key) !in warm[..i]
    ensures SourceChange(key) !in warm[..i]
  {
    var c := warm[i];
    assert c in Elems(warm);
    WarmEntryShape(before, after, c);
    WarmMembership(before, after);
    assert forall e :: e in warm[..i] ==> e in Elems(warm) && e != c;
  }

  /** The hot pass of `apply`: update the workers of cameras with a data change. */
  method ApplyHot(before: RootConfig, after: RootConfig, hot: seq<Change>, workers: map<string, Worker>)
    returns (ws: map<string, Worker>)
    requires NoDup(hot) && Elems(hot) == HotChanges(before, after)
    ensures forall k :: Lookup(ws, k) == AfterHot(k, hot, workers, after)
  {
    ws := workers;
    var i := 0;
    while i < |hot|
      invariant 0 <= i <= |hot|
      invariant forall k :: Lookup(ws, k) == AfterHot(k, hot[..i], workers, after)
    {
      var c := hot[i];
      ghost var done := hot[..i];
      assert hot[..i + 1] == done + [c];
      assert c in Elems(hot);
      assert c !in done;
      HotEntryShape(before, after, c);
      ghost var ws0 := ws;
      match CameraKey(c.component) {
      case None =>
        forall k
          ensures Lookup(ws, k) == AfterHot(k, done + [c], workers, after)
        {
          MqttFrame(k, done, workers, after);
        }
      case Some(key) =>
        assert Lookup(ws0, key) == Lookup(workers, key);
        if key in ws {
          ws := ws[key := ApplyUpdate(ws[key], after.cameras[key])];
        }
        forall k
          ensures Lookup(ws, k) == AfterHot(k, done + [c], workers, after)
        {
          if k != key {
            HotFrame(k, key, c, done, workers, after);
          }
        }
      }
      i := i + 1;
    }
    assert hot[..|hot|] == hot;
  }

  /** The warm pass of `apply`: remove, add or restart workers. */
  method ApplyWarm(before: RootConfig, after: RootConfig, warm: seq<Change>, workers: map<string, Worker>)
    returns (ws: map<string, Worker>, retired: map<string, Worker>)
    requires NoDup(warm) && Elems(warm) == WarmChanges(before, after)
    ensures forall k :: Lookup(ws, k) == AfterWarm(k, warm, workers, after)
    ensures forall k :: Lookup(retired, k) == RetiredAfter(k, warm, workers)
  {
    ws := workers;
    retired := map[];
    var i := 0;
    while i < |warm|
      invariant 0 <= i <= |warm|
      invariant forall k :: Lookup(ws, k) == AfterWarm(k, warm[..i], workers, after)
      invariant forall k :: Lookup(retired, k) == RetiredAfter(k, warm[..i], workers)
    {
      var c := warm[i];
      ghost var done := warm[..i];
      assert warm[..i + 1] == done + [c];
      assert c in Elems(warm);
      WarmEntryShape(before, after, c);
      ghost var ws0, retired0 := ws, retired;
      match CameraKey(c.component) {
      case None =>
      case Some(key) =>
        OnlyWarmEntryOfKey(before, after, warm, i, key);
        assert Lookup(ws0, key) == Lookup(workers, key);
        assert Lookup(retired0, key) == None;
        if c.action == Some(Remove) && key in ws {
          retired := retired[key := Stop(ws[key])];
          ws := ws - {key};
        } else if c.action == Some(Add) {
          ws := ws[key := Start(NewWorker(after.cameras[key]))];
        } else if key in ws {
          ws := ws[key := GracefulRestart(ws[key], after.cameras[key])];
        }
        forall k
          ensures Lookup(ws, k) == AfterWarm(k, done + [c], workers, after)
          ensures Lookup(retired, k) == RetiredAfter(k, done + [c], workers)
        {
          if k != key {
            WarmFrame(k, key, c, done, workers, after);
          }
        }
      }
      i := i + 1;
    }
    assert warm[..|warm|] == warm;
  }

  /**
   * `ConfigManager.apply`: classify against the running configuration,
   * process the hot list, then the warm list, and make `after` the running
   * configuration. `retired` holds the workers the warm pass popped from
   * the map, in the state it left them.
   */
  method Apply(m: Manager, after: RootConfig, workers: map<string, Worker>)
    returns (m': Manager, workers': map<string, Worker>, retired: map<string, Worker>, changes: Changes)
    ensures m'.running == after
    ensures Classifies(m.running, after, changes)
    ensures forall k :: Lookup(workers', k) == Outcome(k, m.running, after, workers)
    ensures forall k :: Lookup(retired, k) ==
                        if k in workers && k in m.running.cameras && k !in after.cameras then Some(Stop(workers[k])) else None
    ensures workers.Keys == m.running.cameras.Keys ==> workers'.Keys == after.cameras.Keys
    ensures m.running == after ==> workers' == workers && retired == map[] && changes == Changes([], [])
  {
    var before := m.running;
    changes := Diff(m, after);
    var ws1 := ApplyHot(before, after, changes.hot, workers);
    workers', retired := ApplyWarm(before, after, changes.warm, ws1);
    m' := Manager(after);
    HotMembership(before, after);
    WarmMembership(before, after);
    forall k
      ensures Lookup(workers', k) == Outcome(k, before, after, workers)
      ensures Lookup(retired, k) ==
              if k in workers && k in before.cameras && k !in after.cameras then Some(Stop(workers[k])) else None
    {
      assert DataChange(k) in changes.hot <==> DataChange(k) in Elems(changes.hot);
      assert RemoveChange(k) in changes.warm <==> RemoveChange(k) in Elems(changes.warm);
      assert AddChange(k) in changes.warm <==> AddChange(k) in Elems(changes.warm);
      assert SourceChange(k) in changes.warm <==> SourceChange(k) in Elems(changes.warm);
      assert Lookup(ws1, k) == AfterHot(k, changes.hot, workers, after);
      if k in workers && k in after.cameras {
        GracefulRestartForgetsPrior(workers[k], ApplyUpdate(workers[k], after.cameras[k]), after.cameras[k]);
      }
    }
    if workers.Keys == before.cameras.Keys {
      OutcomeKeys(before, after, workers);
      LookupKeys(workers', after.cameras.Keys, k => Outcome(k, before, after, workers));
    }
    if before == after {
      DiffSelfEmpty(before, changes);
      forall k
        ensures Lookup(workers', k) == Lookup(workers, k)
      {
        OutcomeUnchangedConfig(k, before, workers);
      }
      LookupExt(workers', workers);
      LookupExt(retired, map[]);
    }
  }

  lemma LookupExt(a: map<string, Worker>, b: map<string, Worker>)
    requires forall k :: Lookup(a, k) == Lookup(b, k)
    ensures a == b
  {
    assert a.Keys == b.Keys by {
      forall k ensures k in a <==> k in b {
        assert Lookup(a, k) == Lookup(b, k);
      }
    }
    forall k | k in a ensures a[k] == b[k] {
      assert Lookup(a, k) == Lookup(b, k);
    }
  }

  lemma LookupKeys(ws: map<string, Worker>, keys: set<string>, f: string -> Option<Worker>)
    requires forall k :: Lookup(ws, k) == f(k)
    requires forall k :: f(k).Some? <==> k in keys
    ensures ws.Keys == keys
  {
    forall k ensures k in ws <==> k in keys {
      assert Lookup(ws, k) == f(k);
    }
  }

  // ---------------------------------------------------------------------------
  // Properties of the outcome
  // ---------------------------------------------------------------------------

  /**
   * When the worker keys were the running camera keys, the keys with a
   * worker afterwards are exactly the new camera keys.
   */
  lemma OutcomeKeys(before: RootConfig, after: RootConfig, ws: map<string, Worker>)
    requires ws.Keys == before.cameras.Keys
    ensures forall k :: Outcome(k, before, after, ws).Some? <==> k in after.cameras
  {
  }

  /** Re-applying the running configuration leaves every worker as it was. */
  lemma OutcomeUnchangedConfig(key: string, cfg: RootConfig, ws: map<string, Worker>)
    ensures Outcome(key, cfg, cfg, ws) == Lookup(ws, key)
  {
  }

  /** A worker whose key no change entry names is left exactly as it was. */
  lemma OutcomeUntouched(key: string, before: RootConfig, after: RootConfig, ws: map<string, Worker>)
    requires forall c :: c in HotChanges(before, after) + WarmChanges(before, after) ==> CameraKey(c.component) != Some(key)
    ensures Outcome(key, before, after, ws) == Lookup(ws, key)
  {
    HotMembership(before, after);
    WarmMembership(before, after);
    CameraKeyOfComponent(key);
    assert RemoveChange(key) !in WarmChanges(before, after);
    assert AddChange(key) !in WarmChanges(before, after);
    assert SourceChange(key) !in WarmChanges(before, after);
    assert DataChange(key) !in HotChanges(before, after);
  }

  /** Hot updates and restarts only reach workers already present: they never create one. */
  lemma OutcomeOnlyPresent(key: string, before: RootConfig, after: RootConfig, ws: map<string, Worker>)
    requires key in before.cameras && key in after.cameras
    ensures Outcome(key, before, after, ws).Some? <==> key in ws
  {
  }

  /**
   * An added camera gets a started worker holding its configuration, even
   * when the camera is disabled.
   */
  lemma AddedWorkerRuns(key: string, before: RootConfig, after: RootConfig, ws: map<string, Worker>)
    requires key !in before.cameras && key in after.cameras
    ensures Outcome(key, before, after, ws) == Some(Worker(after.cameras[key], true, true))
  {
  }

  /**
   * Disabling a camera that has a worker is a source change, so the worker
   * is gracefully restarted and ends up running with the disabled
   * configuration.
   */
  lemma DisabledCameraKeepsRunning(key: string, before: RootConfig, after: RootConfig, ws: map<string, Worker>)
    requires key in before.cameras && key in after.cameras && key in ws
    requires before.cameras[key].enabled && !after.cameras[key].enabled
    ensures Outcome(key, before, after, ws) == Some(Worker(after.cameras[key], true, true))
    ensures SourceChange(key) in WarmChanges(before, after)
  {
    WarmMembership(before, after);
  }
}
