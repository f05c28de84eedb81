/**
 * Body-part visibility: the parts a clothing record hides, and what showing or
 * hiding a group of parts does to the activity of every part.
 */
module BodyParts {
  import opened Clothing
  import opened Rig

  /** The elements of a sequence of parts. */
  function Elements(s: seq<PartId>): set<PartId> {
    set p | p in s
  }

  /**
   * The hidden list built for a record: the renderer of every name that the
   * lookup knows, in the order of the names; unknown names are skipped.
   */
  function LookupParts(lookup: map<string, PartId>, names: seq<string>): (parts: seq<PartId>)
    ensures |parts| <= |names|
    ensures forall k :: 0 <= k < |parts| ==> parts[k] in lookup.Values
  {
    if names == [] then []
    else
      var name := names[|names| - 1];
      LookupParts(lookup, names[..|names| - 1]) + (if name in lookup then [lookup[name]] else [])
  }

  /** A part is in the hidden list exactly when some name of the record maps to it. */
  lemma {:induction false} LookupPartsMembers(lookup: map<string, PartId>, names: seq<string>, p: PartId)
    ensures p in LookupParts(lookup, names) <==> exists n :: n in names && n in lookup && lookup[n] == p
  {
    if names != [] {
      var init, name := names[..|names| - 1], names[|names| - 1];
      LookupPartsMembers(lookup, init, p);
      assert names == init + [name];
      if p in LookupParts(lookup, init) {
        var n :| n in init && n in lookup && lookup[n] == p;
        assert n in names;
      }
    }
  }

  /** The hidden list keeps the order of the names: it distributes over concatenation. */
  lemma {:induction false} LookupPartsAppend(lookup: map<string, PartId>, a: seq<string>, b: seq<string>)
    ensures LookupParts(lookup, a + b) == LookupParts(lookup, a) + LookupParts(lookup, b)
    decreases |b|
  {
    if b == [] {
      assert a + b == a;
    } else {
      var init, name := b[..|b| - 1], b[|b| - 1];
      assert (a + b)[..|a + b| - 1] == a + init;
      LookupPartsAppend(lookup, a, init);
    }
  }

  /** When every name is known, the hidden list is the lookup of each name in turn. */
  lemma {:induction false} LookupPartsAllKnown(lookup: map<string, PartId>, names: seq<string>)
    requires forall k :: 0 <= k < |names| ==> names[k] in lookup
    ensures LookupParts(lookup, names) == seq(|names|, k requires 0 <= k < |names| => lookup[names[k]])
  {
    if names != [] {
      var init := names[..|names| - 1];
      LookupPartsAllKnown(lookup, init);
    }
  }

  /** Part activity after setting every part of `parts` to `value`; other parts keep theirs. */
  function SetAll(active: map<PartId, bool>, parts: set<PartId>, value: bool): (r: map<PartId, bool>)
  {
    map p | p in active.Keys + parts :: if p in parts then value else active[p]
  }

  /** Setting a group of parts sets exactly that group and keeps every other part. */
  lemma SetAllEffect(active: map<PartId, bool>, parts: set<PartId>, value: bool)
    ensures SetAll(active, parts, value).Keys == active.Keys + parts
    ensures forall p :: p in parts ==> SetAll(active, parts, value)[p] == value
    ensures forall p :: p in active && p !in parts ==> SetAll(active, parts, value)[p] == active[p]
  {
  }

  /** Setting one more part is setting the enlarged group. */
  lemma SetAllInsert(active: map<PartId, bool>, parts: set<PartId>, p: PartId, value: bool)
    ensures SetAll(active, parts, value)[p := value] == SetAll(active, parts + {p}, value)
  {
  }

  /** Setting two groups to the same value in turn is setting their union. */
  lemma SetAllUnion(active: map<PartId, bool>, a: set<PartId>, b: set<PartId>, value: bool)
    ensures SetAll(SetAll(active, a, value), b, value) == SetAll(active, a + b, value)
  {
  }

  /** Setting nothing changes nothing. */
  lemma SetAllNothing(active: map<PartId, bool>, value: bool)
    ensures SetAll(active, {}, value) == active
  {
  }

  /** The parts recorded as hidden by any of the categories `cats`. */
  function PartsOf(hidden: map<Category, seq<PartId>>, cats: set<Category>): (ps: set<PartId>)
  {
    set c, p | c in cats && c in hidden && p in hidden[c] :: p
  }

  /** A part is in the group exactly when one of the categories lists it as hidden. */
  lemma PartsOfMembers(hidden: map<Category, seq<PartId>>, cats: set<Category>, p: PartId)
    ensures p in PartsOf(hidden, cats) <==> exists c :: c in cats && c in hidden && p in hidden[c]
  {
  }

  /**
   * Hiding wins over restoring: after the parts of earlier occupants are shown
   * and the new hidden list is hidden, every part of the new list is inactive,
   * every other restored part is active, and no other part changed.
   */
  lemma HideAfterRestore(active: map<PartId, bool>, restored: set<PartId>, hiddenList: seq<PartId>, p: PartId)
    requires p in active || p in restored || p in hiddenList
    ensures var r := SetAll(SetAll(active, restored, true), Elements(hiddenList), false);
      p in r && r[p] == (if p in hiddenList then false else if p in restored then true else active[p])
  {
  }

  /**
   * Two categories may list the same part. Restoring one of them shows the part
   * again although the other category still lists it as hidden.
   */
  lemma RestoreShowsSharedPart(active: map<PartId, bool>, hidden: map<Category, seq<PartId>>,
                               a: Category, b: Category, p: PartId)
    requires a != b && a in hidden && b in hidden && p in hidden[a] && p in hidden[b]
    ensures SetAll(active, PartsOf(hidden, {b}), true)[p]
    ensures a in hidden - {b} && p in (hidden - {b})[a]
  {
  }
}
