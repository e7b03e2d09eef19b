/**
 * The camera-map edits behind the clone, delete, reorder and set routes.
 * Each takes the running configuration document and yields the document to
 * apply, or the HTTP error the route raises. The document's `cameras`
 * object is a dict, so it keeps its keys in insertion order; it may also be
 * missing from the document altogether.
 */
module CameraEdits {
  import opened Wrappers
  import opened Seqs
  import opened Schema
  import CM = ConfigManager

  /** A dict of cameras: its keys in insertion order, and its entries. */
  datatype Cameras = Cameras(order: seq<string>, entries: map<string, CameraConfig>)

  /** Every key is listed once, and the listed keys are the entry keys. */
  predicate WellFormed(c: Cameras) {
    NoDup(c.order) && Elems(c.order) == c.entries.Keys
  }

  const NoCameras := Cameras([], map[])

  datatype Document = Document(mqtt: MqttConfig, cameras: Option<Cameras>)

  predicate DocWellFormed(d: Document) {
    d.cameras.Some? ==> WellFormed(d.cameras.value)
  }

  datatype EditError = NotFound | Conflict | BadRequest {
    function Status(): int {
      match this
      case NotFound => 404
      case Conflict => 409
      case BadRequest => 400
    }
  }

  /** `cams[key] = value`: an existing key keeps its place, a new key goes last. */
  function Assign(c: Cameras, key: string, value: CameraConfig): (r: Cameras)
    ensures WellFormed(c) ==> WellFormed(r)
  {
    if key in c.entries then Cameras(c.order, c.entries[key := value])
    else
      var r := Cameras(c.order + [key], c.entries[key := value]);
      assert WellFormed(c) ==> Elems(r.order) == Elems(c.order) + {key};
      r
  }

  /** `cams.pop(key, None)`. */
  function Pop(c: Cameras, key: string): (r: Cameras)
    ensures WellFormed(c) ==> WellFormed(r)
  {
    var r := Cameras(Filter(c.order, k => k != key), c.entries - {key});
    if WellFormed(c) then FilterNoDup(c.order, k => k != key); r else r
  }

  /** `_ensure_cameras`: give the document an empty `cameras` object when it has none. */
  function EnsureCameras(doc: Document): (r: Document)
    ensures r.cameras.Some? && r.mqtt == doc.mqtt
    ensures doc.cameras.Some? ==> r == doc
    ensures doc.cameras.None? ==> r.cameras.value == NoCameras
    ensures DocWellFormed(doc) ==> DocWellFormed(r)
  {
    if doc.cameras.Some? then doc else doc.(cameras := Some(NoCameras))
  }

  /** The copy a clone stores: the source camera, named after the target when its own name is empty. */
  function Renamed(cam: CameraConfig, target: string): CameraConfig {
    if cam.name == "" then cam.(name := target) else cam
  }

  /** `api_cam_clone`: copy camera `source` to key `target`. */
  function Clone(doc: Document, source: string, target: string, overwrite: bool): (r: Result<Document, EditError>)
    ensures var cams := EnsureCameras(doc).cameras.value;
            && (r == Failure(NotFound) <==> source !in cams.entries)
            && (r == Failure(Conflict) <==> source in cams.entries && target in cams.entries && !overwrite)
            && (r.Success? ==> r.value.mqtt == doc.mqtt && r.value.cameras.Some?)
  {
    var d := EnsureCameras(doc);
    var cams := d.cameras.value;
    if source !in cams.entries then Failure(NotFound)
    else if target in cams.entries && !overwrite then Failure(Conflict)
    else Success(d.(cameras := Some(Assign(cams, target, Renamed(cams.entries[source], target)))))
  }

  /** `api_cam_delete`: remove camera `key`. */
  function Delete(doc: Document, key: string): (r: Result<Document, EditError>)
    ensures r.Failure? <==> doc.cameras.None? || key !in doc.cameras.value.entries
    ensures r.Failure? ==> r.error == NotFound
    ensures r.Success? ==> r.value.mqtt == doc.mqtt && r.value.cameras.Some?
  {
    var cams := doc.cameras.GetOr(NoCameras);
    if key !in cams.entries then Failure(NotFound)
    else Success(doc.(cameras := Some(Pop(cams, key))))
  }

  /** `api_cam_set`: store `value` under `key`, creating the `cameras` object if needed. */
  function SetCamera(doc: Document, key: string, value: CameraConfig): (r: Document)
    ensures r.mqtt == doc.mqtt && r.cameras.Some?
    ensures DocWellFormed(doc) ==> DocWellFormed(r)
  {
    var d := EnsureCameras(doc);
    d.(cameras := Some(Assign(d.cameras.value, key, value)))
  }

  // ---------------------------------------------------------------------------
  // Reorder
  // ---------------------------------------------------------------------------

  /** `[k for k in order if k in cams]`: requested keys that exist, repeats included. */
  function Requested(request: seq<string>, cams: Cameras): seq<string> {
    Filter(request, k => k in cams.entries)
  }

  /** `for k in keys: if k not in acc: acc.append(k)`. */
  function AppendMissing(acc: seq<string>, keys: seq<string>): seq<string>
    decreases |keys|
  {
    if keys == [] then acc
    else AppendMissing(if keys[0] in acc then acc else acc + [keys[0]], keys[1..])
  }

  /** `{k: entries[k] for k in keys}`: the dict built by assigning the keys one by one. */
  function FromKeys(keys: seq<string>, entries: map<string, CameraConfig>): Cameras
    requires forall k :: k in keys ==> k in entries
  {
    if keys == [] then NoCameras
    else
      var last := keys[|keys| - 1];
      Assign(FromKeys(keys[..|keys| - 1], entries), last, entries[last])
  }

  /**
   * `api_cam_reorder`: the document with its cameras rebuilt in the
   * requested order, and the key list the route reports back.
   */
  function Reorder(doc: Document, request: seq<string>): (r: Result<(Document, seq<string>), EditError>)
    requires DocWellFormed(doc)
    ensures r.Failure? <==> doc.cameras.None? || |doc.cameras.value.entries| == 0
    ensures r.Failure? ==> r.error == BadRequest
  {
    var cams := doc.cameras.GetOr(NoCameras);
    if |cams.entries| == 0 then Failure(BadRequest)
    else
      var ordered := AppendMissing(Requested(request, cams), cams.order);
      assert forall k :: k in ordered ==> k in cams.entries by {
        AppendMissingElems(Requested(request, cams), cams.order);
      }
      Success((doc.(cameras := Some(FromKeys(ordered, cams.entries))), ordered))
  }

  lemma {:induction false} AppendMissingElems(acc: seq<string>, keys: seq<string>)
    ensures forall k :: k in AppendMissing(acc, keys) <==> k in acc || k in keys
    decreases |keys|
  {
    if keys != [] {
      AppendMissingElems(if keys[0] in acc then acc else acc + [keys[0]], keys[1..]);
      assert keys == [keys[0]] + keys[1..];
    }
  }

  lemma {:induction false} FilterCongruent(s: seq<string>, p: string -> bool, q: string -> bool)
    requires forall x :: x in s ==> p(x) == q(x)
    ensures Filter(s, p) == Filter(s, q)
  {
    if s != [] {
      FilterCongruent(s[1..], p, q);
    }
  }

  /** Appending the missing keys of a duplicate-free listing adds them in their own order. */
  lemma {:induction false} AppendMissingIsFilter(acc: seq<string>, keys: seq<string>)
    requires NoDup(keys)
    ensures AppendMissing(acc, keys) == acc + Filter(keys, k => k !in acc)
    decreases |keys|
  {
    if keys != [] {
      var k0 := keys[0];
      var rest := keys[1..];
      assert NoDup(rest);
      assert k0 !in rest;
      if k0 in acc {
        AppendMissingIsFilter(acc, rest);
      } else {
        AppendMissingIsFilter(acc + [k0], rest);
        FilterCongruent(rest, k => k !in acc + [k0], k => k !in acc);
      }
    }
  }

  /** Building a dict from a key list keeps the first occurrence of each key, and the given entries. */
  lemma {:induction false} FromKeysSpec(keys: seq<string>, entries: map<string, CameraConfig>)
    requires forall k :: k in keys ==> k in entries
    ensures FromKeys(keys, entries).order == Dedup(keys)
    ensures FromKeys(keys, entries).entries == map k | k in Elems(keys) :: entries[k]
    ensures WellFormed(FromKeys(keys, entries))
  {
    if keys != [] {
      var init := keys[..|keys| - 1];
      var last := keys[|keys| - 1];
      assert keys == init + [last];
      FromKeysSpec(init, entries);
      assert Elems(keys) == Elems(init) + {last};
    }
  }

  /**
   * A successful reorder keeps every key with its camera and reorders the
   * keys thus: the requested keys that exist, in request order at their
   * first occurrence, then the unrequested keys in their original order.
   * Unknown requested keys are dropped. The reported list is the one built
   * before the dict, so it repeats any key requested twice.
   */
  lemma ReorderSpec(doc: Document, request: seq<string>)
    requires DocWellFormed(doc) && Reorder(doc, request).Success?
    ensures var cams := doc.cameras.value;
            var (d, reported) := Reorder(doc, request).value;
            var rest := Filter(cams.order, k => k !in request);
            && d.mqtt == doc.mqtt
            && d.cameras.Some?
            && WellFormed(d.cameras.value)
            && d.cameras.value.entries == cams.entries
            && d.cameras.value.order == Dedup(Requested(request, cams)) + rest
            && reported == Requested(request, cams) + rest
  {
    var cams := doc.cameras.value;
    ReorderedKeys(cams, request);
    RebuiltDict(cams, request);
  }

  /** The key list a reorder builds: the existing requested keys, then the unrequested ones. */
  lemma ReorderedKeys(cams: Cameras, request: seq<string>)
    requires WellFormed(cams)
    ensures AppendMissing(Requested(request, cams), cams.order)
            == Requested(request, cams) + Filter(cams.order, k => k !in request)
  {
    var req := Requested(request, cams);
    AppendMissingIsFilter(req, cams.order);
    FilterCongruent(cams.order, k => k !in req, k => k !in request);
  }

  /** The dict rebuilt from that key list holds the same entries, each key once at its first place. */
  lemma RebuiltDict(cams: Cameras, request: seq<string>)
    requires WellFormed(cams)
    requires AppendMissing(Requested(request, cams), cams.order)
             == Requested(request, cams) + Filter(cams.order, k => k !in request)
    ensures var ordered := AppendMissing(Requested(request, cams), cams.order);
            && (forall k :: k in ordered ==> k in cams.entries)
            && FromKeys(ordered, cams.entries).order
               == Dedup(Requested(request, cams)) + Filter(cams.order, k => k !in request)
            && FromKeys(ordered, cams.entries).entries == cams.entries
            && WellFormed(FromKeys(ordered, cams.entries))
  {
    var req := Requested(request, cams);
    var rest := Filter(cams.order, k => k !in request);
    FilterNoDup(cams.order, k => k !in request);
    AppendMissingElems(req, cams.order);
    FromKeysOfSplit(req, rest, cams.entries);
  }

  /** Rebuilding from `req + rest`, with `rest` duplicate-free and apart from `req`, keeps all of `rest`. */
  lemma FromKeysOfSplit(req: seq<string>, rest: seq<string>, entries: map<string, CameraConfig>)
    requires NoDup(rest)
    requires forall x :: x in rest ==> x !in req
    requires Elems(req + rest) == entries.Keys
    ensures forall k :: k in req + rest ==> k in entries
    ensures FromKeys(req + rest, entries).order == Dedup(req) + rest
    ensures FromKeys(req + rest, entries).entries == entries
    ensures WellFormed(FromKeys(req + rest, entries))
  {
    DedupAppendFresh(req, rest);
    FromKeysSpec(req + rest, entries);
  }

  /** A request naming a camera twice is reported back with the repeat, though the dict holds it once. */
  lemma ReportedOrderMayRepeat(cam: CameraConfig)
    ensures var doc := Document(DefaultMqtt(), Some(Cameras(["a"], map["a" := cam])));
            DocWellFormed(doc) &&
            var r := Reorder(doc, ["a", "a"]);
            r.Success? && r.value.1 == ["a", "a"] && r.value.0.cameras.value.order == ["a"]
  {
    var doc := Document(DefaultMqtt(), Some(Cameras(["a"], map["a" := cam])));
    assert DocWellFormed(doc);
    assert Requested(["a", "a"], doc.cameras.value) == ["a", "a"];
    assert AppendMissing(["a", "a"], ["a"]) == ["a", "a"];
    FromKeysSpec(["a", "a"], doc.cameras.value.entries);
    assert Dedup(["a"]) == ["a"];
    assert ["a", "a"][..1] == ["a"];
    assert Dedup(["a", "a"]) == ["a"];
  }

  // ---------------------------------------------------------------------------
  // Effects of the successful edits
  // ---------------------------------------------------------------------------

  /**
   * A successful clone stores at `target` a copy of the source camera, named
   * after the target when the source's name is empty; every other camera is
   * unchanged, and a new target key is appended after the existing ones.
   */
  lemma CloneSpec(doc: Document, source: string, target: string, overwrite: bool)
    requires DocWellFormed(doc) && Clone(doc, source, target, overwrite).Success?
    ensures var cams := EnsureCameras(doc).cameras.value;
            var c := Clone(doc, source, target, overwrite).value.cameras.value;
            var src := cams.entries[source];
            && WellFormed(c)
            && c.entries.Keys == cams.entries.Keys + {target}
            && c.entries[target].name == (if src.name == "" then target else src.name)
            && c.entries[target] == src.(name := c.entries[target].name)
            && (forall k :: k in cams.entries && k != target ==> c.entries[k] == cams.entries[k])
            && c.order == (if target in cams.entries then cams.order else cams.order + [target])
  {
  }

  /** A successful delete removes exactly `key`, keeping the order of the remaining cameras. */
  lemma DeleteSpec(doc: Document, key: string)
    requires DocWellFormed(doc) && Delete(doc, key).Success?
    ensures var cams := doc.cameras.value;
            var c := Delete(doc, key).value.cameras.value;
            && WellFormed(c)
            && c.entries.Keys == cams.entries.Keys - {key}
            && (forall k :: k in c.entries ==> c.entries[k] == cams.entries[k])
            && c.order == Filter(cams.order, k => k != key)
  {
  }

  /**
   * Set stores `value` under `key` and leaves every other camera and the
   * broker settings alone; a new key is appended, an existing one keeps its
   * place.
   */
  lemma SetSpec(doc: Document, key: string, value: CameraConfig)
    requires DocWellFormed(doc)
    ensures var cams := doc.cameras.GetOr(NoCameras);
            var r := SetCamera(doc, key, value);
            var c := r.cameras.value;
            && r.mqtt == doc.mqtt
            && WellFormed(c)
            && c.entries.Keys == cams.entries.Keys + {key}
            && c.entries[key] == value
            && (forall k :: k in cams.entries && k != key ==> c.entries[k] == cams.entries[k])
            && c.order == (if key in cams.entries then cams.order else cams.order + [key])
  {
  }

  // ---------------------------------------------------------------------------
  // What the classifier makes of each edit
  // ---------------------------------------------------------------------------

  /** The typed configuration a document stands for; a missing `cameras` object means no cameras. */
  function ToRoot(doc: Document): RootConfig {
    RootConfig(doc.mqtt, doc.cameras.GetOr(NoCameras).entries)
  }

  /** Reordering is invisible to the classifier: dict equality ignores key order. */
  lemma ReorderChangesNothing(doc: Document, request: seq<string>)
    requires DocWellFormed(doc) && Reorder(doc, request).Success?
    ensures ToRoot(Reorder(doc, request).value.0) == ToRoot(doc)
    ensures CM.HotChanges(ToRoot(doc), ToRoot(Reorder(doc, request).value.0)) == {}
    ensures CM.WarmChanges(ToRoot(doc), ToRoot(Reorder(doc, request).value.0)) == {}
  {
    var d := Reorder(doc, request).value.0;
    ReorderSpec(doc, request);
    assert d.mqtt == doc.mqtt && d.cameras.value.entries == doc.cameras.value.entries;
    assert ToRoot(d) == ToRoot(doc);
    CM.NoChangesAgainstSelf(ToRoot(doc));
  }

  /** Deleting a camera classifies as exactly one warm removal of that camera. */
  lemma DeleteIsOneRemoval(doc: Document, key: string)
    requires DocWellFormed(doc) && Delete(doc, key).Success?
    ensures var before := ToRoot(doc);
            var after := ToRoot(Delete(doc, key).value);
            CM.HotChanges(before, after) == {} && CM.WarmChanges(before, after) == {CM.RemoveChange(key)}
  {
    var before := ToRoot(doc);
    var after := ToRoot(Delete(doc, key).value);
    DeleteSpec(doc, key);
    CM.WarmMembership(before, after);
    forall c
      ensures c in CM.WarmChanges(before, after) <==> c == CM.RemoveChange(key)
    {
      if c in CM.WarmChanges(before, after) {
        CM.WarmEntryShape(before, after, c);
      }
    }
    assert CM.HotChanges(before, after) == {};
  }

  /** Cloning onto a fresh key classifies as exactly one warm addition of that key. */
  lemma CloneToFreshKeyIsOneAddition(doc: Document, source: string, target: string, overwrite: bool)
    requires DocWellFormed(doc) && Clone(doc, source, target, overwrite).Success?
    requires doc.cameras.Some? ==> target !in doc.cameras.value.entries
    ensures var before := ToRoot(doc);
            var after := ToRoot(Clone(doc, source, target, overwrite).value);
            CM.HotChanges(before, after) == {} && CM.WarmChanges(before, after) == {CM.AddChange(target)}
  {
    var before := ToRoot(doc);
    var after := ToRoot(Clone(doc, source, target, overwrite).value);
    CloneSpec(doc, source, target, overwrite);
    CM.WarmMembership(before, after);
    forall c
      ensures c in CM.WarmChanges(before, after) <==> c == CM.AddChange(target)
    {
      if c in CM.WarmChanges(before, after) {
        CM.WarmEntryShape(before, after, c);
      }
    }
    assert CM.HotChanges(before, after) == {};
  }
}
