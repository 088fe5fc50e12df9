/**
 * src/stores/indexedDBStorage.ts: what the store persists to IndexedDB after
 * removing what cannot be stored (`cleanObjectForStorage`), and the function
 * put back after loading (`restoreRequiredFunctions`).
 *
 * An object is its own enumerable properties, in the order `for...in` visits
 * them. A React element is an object with a truthy `$$typeof` property.
 */
module StorageClean {
  import opened JsCore

  datatype Js =
    | Undefined
    | Null
    | Bool(b: bool)
    | Num(n: real)
    | Str(s: string)
    | Func(name: string)
    | Symbol(description: string)
    | Date(iso: Option<string>)
    | Arr(items: seq<Js>)
    | Obj(entries: seq<Entry>)

  /** An own property of an object. */
  datatype Entry = Entry(key: string, val: Js)

  predicate Truthy(v: Js) {
    match v
    case Undefined => false
    case Null => false
    case Bool(b) => b
    case Num(n) => n != 0.0
    case Str(s) => s != ""
    case _ => true
  }

  /**
   * `obj[key]` over own properties, else undefined. The keys of an object are
   * distinct; should a list repeat one, the last occurrence counts.
   */
  function Lookup(entries: seq<Entry>, key: string): Js {
    if entries == [] then Undefined
    else if entries[|entries| - 1].key == key then entries[|entries| - 1].val
    else Lookup(entries[..|entries| - 1], key)
  }

  /** `obj[key]` on any value: only objects have the properties modelled here. */
  function Prop(v: Js, key: string): Js {
    if v.Obj? then Lookup(v.entries, key) else Undefined
  }

  /** `value.$$typeof` is truthy. */
  predicate IsReactElement(v: Js) {
    v.Obj? && Truthy(Lookup(v.entries, "$$typeof"))
  }

  /** A property value the cleaner drops: a function, a symbol or a React element. */
  predicate Dropped(v: Js) {
    v.Func? || v.Symbol? || IsReactElement(v)
  }

  /** The properties the cleaner keeps, in order. */
  function Kept(s: seq<Entry>): (r: seq<Entry>)
    ensures |r| <= |s|
    ensures forall i :: 0 <= i < |r| ==> r[i] in s && !Dropped(r[i].val)
    ensures forall e :: e in s && !Dropped(e.val) ==> e in r
  {
    if s == [] then []
    else
      var e := s[|s| - 1];
      Kept(s[..|s| - 1]) + (if Dropped(e.val) then [] else [e])
  }

  /** A value exactly as the cleaner leaves it: no Date, no React element, and no object property that would be dropped. */
  predicate Storable(v: Js)
    decreases v, 1
  {
    match v
    case Date(_) => false
    case Arr(items) => StorableList(items)
    case Obj(entries) => !IsReactElement(v) && StorableEntries(entries)
    case _ => true
  }

  predicate StorableList(s: seq<Js>)
    decreases s, 0
  {
    s == [] || (StorableList(s[..|s| - 1]) && Storable(s[|s| - 1]))
  }

  predicate StorableEntries(s: seq<Entry>)
    decreases s, 0
  {
    s == [] ||
    (var e := s[|s| - 1];
     assert e.val < e;
     StorableEntries(s[..|s| - 1]) && !Dropped(e.val) && Storable(e.val))
  }

  /** The value holds an invalid Date (outside any React element, or any property that is dropped). */
  predicate HasInvalidDate(v: Js)
    decreases v, 1
  {
    match v
    case Date(iso) => iso.None?
    case Arr(items) => InvalidDateInList(items)
    case Obj(entries) => !IsReactElement(v) && InvalidDateInEntries(entries)
    case _ => false
  }

  predicate InvalidDateInList(s: seq<Js>)
    decreases s, 0
  {
    s != [] && (InvalidDateInList(s[..|s| - 1]) || HasInvalidDate(s[|s| - 1]))
  }

  predicate InvalidDateInEntries(s: seq<Entry>)
    decreases s, 0
  {
    s != [] &&
    (var e := s[|s| - 1];
     assert e.val < e;
     InvalidDateInEntries(s[..|s| - 1]) || (!Dropped(e.val) && HasInvalidDate(e.val)))
  }

  /**
   * `cleanObjectForStorage(obj)`: primitives (functions and symbols included)
   * unchanged, a Date as its ISO string, an array element by element, a React
   * element as null, and a plain object without its function, symbol and React
   * element properties, the others cleaned. `toISOString` of an invalid Date
   * throws. What comes out is storable, and a storable value comes out as it is.
   */
  function Clean(v: Js): (r: Result<Js>)
    ensures !(v.Date? || v.Arr? || v.Obj?) ==> r == Ok(v)
    ensures v.Date? && v.iso.Some? ==> r == Ok(Str(v.iso.value))
    ensures r.Err? <==> HasInvalidDate(v)
    ensures r.Ok? ==> Storable(r.value)
    ensures Storable(v) ==> r == Ok(v)
    ensures IsReactElement(v) ==> r == Ok(Null)
    decreases v, 1
  {
    match v
    case Date(iso) => if iso.Some? then Ok(Str(iso.value)) else Err(RangeError("Invalid time value"))
    case Arr(items) =>
      var c := CleanList(items);
      if c.Err? then Err(c.error) else Ok(Arr(c.value))
    case Obj(entries) =>
      if IsReactElement(v) then Ok(Null)
      else
        var c := CleanEntries(entries);
        if c.Err? then Err(c.error) else Ok(Obj(c.value))
    case _ => Ok(v)
  }

  /** `items.map(cleanObjectForStorage)`: same length, each element cleaned; the first element that throws makes it throw. */
  function CleanList(s: seq<Js>): (r: Result<seq<Js>>)
    ensures r.Err? <==> InvalidDateInList(s)
    ensures r.Ok? ==> |r.value| == |s| && forall i :: 0 <= i < |s| ==> Clean(s[i]) == Ok(r.value[i])
    ensures r.Ok? ==> StorableList(r.value)
    ensures StorableList(s) ==> r == Ok(s)
    decreases s, 0
  {
    if s == [] then Ok([])
    else
      var init := CleanList(s[..|s| - 1]);
      var last := Clean(s[|s| - 1]);
      if init.Err? then Err(init.error)
      else if last.Err? then Err(last.error)
      else
        var r := init.value + [last.value];
        assert r[..|r| - 1] == init.value;
        assert s[..|s| - 1] + [s[|s| - 1]] == s;
        Ok(r)
  }

  /**
   * The `for...in` loop over a plain object: the kept properties, in order,
   * with their values cleaned.
   */
  function CleanEntries(s: seq<Entry>): (r: Result<seq<Entry>>)
    ensures r.Err? <==> InvalidDateInEntries(s)
    ensures r.Ok? ==> StorableEntries(r.value)
    ensures r.Ok? && !Truthy(Lookup(s, "$$typeof")) ==> !Truthy(Lookup(r.value, "$$typeof"))
    ensures StorableEntries(s) ==> r == Ok(s)
    decreases s, 0
  {
    if s == [] then Ok([])
    else
      var p := s[..|s| - 1];
      var e := s[|s| - 1];
      assert e.val < e;
      assert InvalidDateInEntries(s) == (InvalidDateInEntries(p) || (!Dropped(e.val) && HasInvalidDate(e.val)));
      assert StorableEntries(s) == (StorableEntries(p) && !Dropped(e.val) && Storable(e.val));
      var init := CleanEntries(p);
      if init.Err? then Err(init.error)
      else if Dropped(e.val) then
        assert Lookup(s, "$$typeof") == if e.key == "$$typeof" then e.val else Lookup(p, "$$typeof");
        init
      else
        var c := Clean(e.val);
        if c.Err? then Err(c.error)
        else
          var r := init.value + [Entry(e.key, c.value)];
          assert r[..|r| - 1] == init.value;
          assert StorableEntries(r) == (StorableEntries(init.value) && !Dropped(c.value) && Storable(c.value));
          assert Lookup(r, "$$typeof") == if e.key == "$$typeof" then c.value else Lookup(init.value, "$$typeof");
          assert p + [e] == s;
          Ok(r)
  }

  /** The cleaned object holds exactly the kept properties, in their order, each with its value cleaned. */
  lemma {:induction false} CleanEntriesKeepsOrder(s: seq<Entry>)
    requires CleanEntries(s).Ok?
    ensures |CleanEntries(s).value| == |Kept(s)|
    ensures forall i :: 0 <= i < |Kept(s)| ==>
              Clean(Kept(s)[i].val).Ok? && CleanEntries(s).value[i] == Entry(Kept(s)[i].key, Clean(Kept(s)[i].val).value)
    decreases |s|
  {
    if s != [] {
      var p := s[..|s| - 1];
      var e := s[|s| - 1];
      assert e.val < e;
      assert CleanEntries(p).Ok?;
      CleanEntriesKeepsOrder(p);
      var k, c := Kept(p), CleanEntries(p).value;
      if Dropped(e.val) {
        assert Kept(s) == k && CleanEntries(s).value == c;
      } else {
        assert Kept(s) == k + [e];
        assert CleanEntries(s).value == c + [Entry(e.key, Clean(e.val).value)];
      }
    }
  }

  /** Cleaning twice is cleaning once. */
  lemma CleanIdempotent(v: Js)
    requires Clean(v).Ok?
    ensures Clean(Clean(v).value) == Clean(v)
  {
  }

  /**
   * `cleanObjectForStorage(obj)` as written: a recursive walk that maps arrays
   * and fills the cleaned object one property at a time.
   */
  method CleanObjectForStorage(v: Js) returns (r: Result<Js>)
    ensures r == Clean(v)
    decreases v, 1
  {
    match v {
      case Date(iso) =>
        if iso.Some? {
          r := Ok(Str(iso.value));
        } else {
          r := Err(RangeError("Invalid time value"));
        }
      case Arr(items) =>
        var c := CleanArray(items);
        r := if c.Err? then Err(c.error) else Ok(Arr(c.value));
      case Obj(entries) =>
        if Truthy(Lookup(entries, "$$typeof")) {
          return Ok(Null);
        }
        var c := CleanProperties(entries);
        r := if c.Err? then Err(c.error) else Ok(Obj(c.value));
      case _ =>
        r := Ok(v);
    }
  }

  /** `obj.map(item => cleanObjectForStorage(item))`. */
  method CleanArray(items: seq<Js>) returns (r: Result<seq<Js>>)
    ensures r == CleanList(items)
    decreases items, 0
  {
    var out: seq<Js> := [];
    var i := 0;
    while i < |items|
      invariant 0 <= i <= |items|
      invariant CleanList(items[..i]) == Ok(out)
    {
      var c := CleanObjectForStorage(items[i]);
      assert items[..i + 1][..i] == items[..i];
      if c.Err? {
        CleanListErrorStays(items, i + 1);
        return Err(c.error);
      }
      out := out + [c.value];
      i := i + 1;
    }
    assert items[..i] == items;
    r := Ok(out);
  }

  /** The `for...in` loop: skips functions, symbols and React elements, and cleans the rest into `cleaned`. */
  method CleanProperties(entries: seq<Entry>) returns (r: Result<seq<Entry>>)
    ensures r == CleanEntries(entries)
    decreases entries, 0
  {
    var cleaned: seq<Entry> := [];
    var i := 0;
    while i < |entries|
      invariant 0 <= i <= |entries|
      invariant CleanEntries(entries[..i]) == Ok(cleaned)
    {
      var key := entries[i].key;
      var value := entries[i].val;
      assert entries[..i + 1][..i] == entries[..i];
      assert entries[..i + 1][i] == entries[i];
      if value.Func? || value.Symbol? || (Truthy(value) && value.Obj? && Truthy(Lookup(value.entries, "$$typeof"))) {
        i := i + 1;
        continue;
      }
      assert value < entries[i];
      var c := CleanObjectForStorage(value);
      if c.Err? {
        CleanEntriesErrorStays(entries, i + 1);
        return Err(c.error);
      }
      cleaned := cleaned + [Entry(key, c.value)];
      i := i + 1;
    }
    assert entries[..i] == entries;
    r := Ok(cleaned);
  }

  /** Once a prefix of the array throws, the whole map throws the same. */
  lemma {:induction false} CleanListErrorStays(s: seq<Js>, i: nat)
    requires i <= |s| && CleanList(s[..i]).Err?
    ensures CleanList(s) == CleanList(s[..i])
    decreases |s| - i
  {
    if i < |s| {
      assert s[..i + 1][..i] == s[..i];
      CleanListErrorStays(s, i + 1);
    } else {
      assert s[..i] == s;
    }
  }

  /** Once a prefix of the properties throws, the whole loop throws the same. */
  lemma {:induction false} CleanEntriesErrorStays(s: seq<Entry>, i: nat)
    requires i <= |s| && CleanEntries(s[..i]).Err?
    ensures CleanEntries(s) == CleanEntries(s[..i])
    decreases |s| - i
  {
    if i < |s| {
      assert s[..i + 1][..i] == s[..i];
      CleanEntriesErrorStays(s, i + 1);
    } else {
      assert s[..i] == s;
    }
  }

  // ---------------------------------------------------------------------------
  // Restoring the function after loading

  /** Some own property has key `k`. */
  predicate KeyIn(s: seq<Entry>, k: string) {
    exists i :: 0 <= i < |s| && s[i].key == k
  }

  /**
   * `obj[key] = val` on an object's own properties: the property keeps its
   * place when it exists, and a new one goes last.
   */
  function SetEntry(s: seq<Entry>, key: string, val: Js): (r: seq<Entry>)
    ensures Lookup(r, key) == val
    ensures forall k :: k != key ==> Lookup(r, k) == Lookup(s, k)
    ensures !KeyIn(s, key) ==> r == s + [Entry(key, val)]
    ensures |r| == |s| + (if KeyIn(s, key) then 0 else 1)
  {
    if !KeyIn(s, key) then
      var r := s + [Entry(key, val)];
      assert r[..|r| - 1] == s;
      r
    else if s[|s| - 1].key == key then s[..|s| - 1] + [Entry(key, val)]
    else
      assert KeyIn(s[..|s| - 1], key) by {
        var i :| 0 <= i < |s| && s[i].key == key;
        assert i < |s| - 1 && s[..|s| - 1][i].key == key;
      }
      var r := SetEntry(s[..|s| - 1], key, val) + [s[|s| - 1]];
      assert r[..|r| - 1] == SetEntry(s[..|s| - 1], key, val);
      r
  }

  /** `restoreRequiredFunctions` puts `snap` back exactly when this holds. */
  predicate HasTimelineOptions(obj: Js) {
    Truthy(obj) && (obj.Date? || obj.Arr? || obj.Obj?)
    && Truthy(Prop(obj, "context")) && Truthy(Prop(Prop(obj, "context"), "timelineOptions"))
  }

  /** The identity `snap` function that is put back. */
  const Snap := Func("snap")

  /**
   * `restoreRequiredFunctions(obj)`: when `obj.context.timelineOptions` is
   * there, its `snap` becomes the identity function; everything else is
   * returned as it is. A truthy primitive in that place cannot take a property
   * (module code is strict), so the assignment throws.
   */
  function Restore(obj: Js): (r: Result<Js>)
    ensures !HasTimelineOptions(obj) ==> r == Ok(obj)
    ensures HasTimelineOptions(obj) && Prop(Prop(obj, "context"), "timelineOptions").Obj? ==>
              && r.Ok? && r.value.Obj?
              && Prop(Prop(Prop(r.value, "context"), "timelineOptions"), "snap") == Snap
              && (forall k :: k != "snap" ==> Prop(Prop(Prop(r.value, "context"), "timelineOptions"), k) == Prop(Prop(Prop(obj, "context"), "timelineOptions"), k))
              && (forall k :: k != "timelineOptions" ==> Prop(Prop(r.value, "context"), k) == Prop(Prop(obj, "context"), k))
              && (forall k :: k != "context" ==> Prop(r.value, k) == Prop(obj, k))
    ensures r.Err? <==> HasTimelineOptions(obj) && !(Prop(Prop(obj, "context"), "timelineOptions").Date?
                                                     || Prop(Prop(obj, "context"), "timelineOptions").Arr?
                                                     || Prop(Prop(obj, "context"), "timelineOptions").Obj?
                                                     || Prop(Prop(obj, "context"), "timelineOptions").Func?)
  {
    if !HasTimelineOptions(obj) then Ok(obj)
    else
      var ctx := Prop(obj, "context");
      var opts := Prop(ctx, "timelineOptions");
      match opts
      case Obj(o) =>
        var newCtx := Obj(SetEntry(ctx.entries, "timelineOptions", Obj(SetEntry(o, "snap", Snap))));
        Ok(Obj(SetEntry(obj.entries, "context", newCtx)))
      case Date(_) => Ok(obj)
      case Arr(_) => Ok(obj)
      case Func(_) => Ok(obj)
      case _ => Err(TypeError("Cannot create property 'snap'"))
  }

  lemma {:induction false} LookupFindsKey(s: seq<Entry>, k: string)
    requires Lookup(s, k) != Undefined
    ensures KeyIn(s, k)
  {
    if s[|s| - 1].key != k {
      LookupFindsKey(s[..|s| - 1], k);
      var i :| 0 <= i < |s| - 1 && s[..|s| - 1][i].key == k;
      assert s[i].key == k;
    }
  }

  /** A property read from a storable object is storable and would not be dropped. */
  lemma {:induction false} LookupStorable(s: seq<Entry>, k: string)
    requires StorableEntries(s)
    ensures Storable(Lookup(s, k)) && !Dropped(Lookup(s, k))
  {
    if s != [] && s[|s| - 1].key != k {
      LookupStorable(s[..|s| - 1], k);
    }
  }

  /**
   * Replacing a property of a storable object by a value that cleans back to
   * the old one: cleaning gives back the object as it was.
   */
  lemma {:induction false} CleanAfterSetEntry(s: seq<Entry>, k: string, w: Js)
    requires StorableEntries(s) && KeyIn(s, k)
    requires !Dropped(w) && Clean(w) == Ok(Lookup(s, k))
    ensures CleanEntries(SetEntry(s, k, w)) == Ok(s)
  {
    var init := s[..|s| - 1];
    var e := s[|s| - 1];
    assert s == init + [e];
    var t := SetEntry(s, k, w);
    if e.key == k {
      assert t == init + [Entry(k, w)];
      assert t[..|t| - 1] == init;
    } else {
      assert KeyIn(init, k) by {
        var i :| 0 <= i < |s| && s[i].key == k;
        assert i < |s| - 1 && init[i].key == k;
      }
      CleanAfterSetEntry(init, k, w);
      assert t[..|t| - 1] == SetEntry(init, k, w);
    }
  }

  /** The same step one level up: the object holding the replaced property cleans back to itself. */
  lemma CleanObjAfterSetEntry(v: Js, k: string, w: Js)
    requires v.Obj? && Storable(v) && KeyIn(v.entries, k) && k != "$$typeof"
    requires !Dropped(w) && Clean(w) == Ok(Prop(v, k))
    ensures !Dropped(Obj(SetEntry(v.entries, k, w)))
    ensures Clean(Obj(SetEntry(v.entries, k, w))) == Ok(v)
  {
    var t := SetEntry(v.entries, k, w);
    assert Lookup(t, "$$typeof") == Lookup(v.entries, "$$typeof");
    assert !IsReactElement(Obj(t));
    CleanAfterSetEntry(v.entries, k, w);
    assert Clean(Obj(t)) == Ok(Obj(v.entries));
  }

  /** Timeline options with `snap` added clean back to the options as loaded. */
  lemma CleanAddedSnap(opts: Js)
    requires opts.Obj? && Storable(opts) && !KeyIn(opts.entries, "snap")
    ensures !Dropped(Obj(SetEntry(opts.entries, "snap", Snap)))
    ensures Clean(Obj(SetEntry(opts.entries, "snap", Snap))) == Ok(opts)
  {
    var o := opts.entries;
    var t := o + [Entry("snap", Snap)];
    assert t[..|t| - 1] == o;
    assert Lookup(t, "$$typeof") == Lookup(o, "$$typeof");
    assert CleanEntries(t) == Ok(o);
  }

  /**
   * Loading then storing again: for a storable document whose timeline
   * options have no `snap`, cleaning what `Restore` returns gives back exactly
   * what was loaded.
   */
  lemma RestoreThenClean(obj: Js)
    requires Storable(obj) && HasTimelineOptions(obj)
    requires Prop(Prop(obj, "context"), "timelineOptions").Obj?
    requires !KeyIn(Prop(Prop(obj, "context"), "timelineOptions").entries, "snap")
    ensures Restore(obj).Ok? && Clean(Restore(obj).value) == Ok(obj)
  {
    var ctx := Prop(obj, "context");
    LookupStorable(obj.entries, "context");
    LookupFindsKey(obj.entries, "context");
    var opts := Prop(ctx, "timelineOptions");
    LookupStorable(ctx.entries, "timelineOptions");
    LookupFindsKey(ctx.entries, "timelineOptions");
    CleanAddedSnap(opts);
    var newOpts := Obj(SetEntry(opts.entries, "snap", Snap));
    CleanObjAfterSetEntry(ctx, "timelineOptions", newOpts);
    var newCtx := Obj(SetEntry(ctx.entries, "timelineOptions", newOpts));
    CleanObjAfterSetEntry(obj, "context", newCtx);
  }

  /**
   * What zustand's persist layer stores is an envelope `{ state, version }`;
   * its `context` sits under `state`, so the lookup of `obj.context` finds
   * nothing and the envelope comes back without `snap`.
   */
  lemma RestoreSkipsEnvelope(state: Js, version: Js)
    ensures Restore(Obj([Entry("state", state), Entry("version", version)])) == Ok(Obj([Entry("state", state), Entry("version", version)]))
  {
    var env := Obj([Entry("state", state), Entry("version", version)]);
    assert "version" != "context" by { assert "version"[0] != "context"[0]; }
    assert "state" != "context";
    assert env.entries[..1] == [Entry("state", state)];
    assert Lookup([Entry("state", state)], "context") == Lookup([], "context");
    assert Lookup(env.entries, "context") == Lookup([Entry("state", state)], "context");
  }
}
