/**
 The debounce/aggregation state machine of the file listener, as values.

 Each change event adds GUIDs to the pending set and (re)arms the single
 timer; a fire of the timer either discards the batch (when a skip was
 requested) or hands it to the callback, and empties the pending set in both
 cases. The calls made to the include scanner and the batches handed to the
 callback are kept as logs. The class in FileListener.dfy is proved to follow
 these step functions; the lemmas here are what they add up to.
 */
module ListenerSpec {
  import opened PathResolver

  datatype Option<T> = None | Some(value: T)

  /** The listener's state: `pending` is the set of updated GUIDs, `armed` says
      whether a timer is scheduled (there is never more than one), `scans` holds
      the argument of every scanner call in call order, and `delivered` every
      batch handed to the callback. */
  datatype ListenerState = ListenerState(
    pending: set<string>,
    skip: bool,
    armed: bool,
    scans: seq<seq<string>>,
    delivered: seq<set<string>>)

  /** A freshly constructed listener: nothing pending, no timer, skip unset. */
  const Initial := ListenerState({}, false, false, [], [])

  /** The include-map entry as a set of GUIDs. */
  function Elements(guids: seq<string>): set<string>
  {
    set g | g in guids
  }

  /** The scanner calls made for an include-map entry: one single-element list
      per GUID, in the entry's order. */
  function Singletons(guids: seq<string>): (calls: seq<seq<string>>)
    ensures |calls| == |guids|
    ensures forall i :: 0 <= i < |guids| ==> calls[i] == [guids[i]]
  {
    if |guids| == 0 then [] else [[guids[0]]] + Singletons(guids[1..])
  }

  /** Taking one more GUID of an entry adds one GUID to the set ... */
  lemma ElementsSnoc(guids: seq<string>, i: nat)
    requires i < |guids|
    ensures Elements(guids[..i + 1]) == Elements(guids[..i]) + {guids[i]}
  {
    assert guids[..i + 1] == guids[..i] + [guids[i]];
  }

  /** ... and one scanner call, for that GUID, at the end of the calls. */
  lemma SingletonsSnoc(guids: seq<string>, i: nat)
    requires i < |guids|
    ensures Singletons(guids[..i + 1]) == Singletons(guids[..i]) + [[guids[i]]]
  {
    assert guids[..i + 1] == guids[..i] + [guids[i]];
  }

  /** A change under the script root: scan the GUID, add it, re-arm. */
  function ScriptStep(l: ListenerState, scriptRootLen: nat, filename: string): ListenerState
  {
    var guid := Extract(filename, scriptRootLen);
    l.(pending := l.pending + {guid}, scans := l.scans + [[guid]], armed := true)
  }

  /** A change under the include root: an unknown key is ignored; a known one
      scans and adds every GUID of its entry, then re-arms (even for an empty
      entry). */
  function IncludeStep(l: ListenerState, includeRootLen: nat, filename: string,
                       includes: map<string, seq<string>>): ListenerState
  {
    var key := IncludeKey(filename, includeRootLen);
    if key !in includes then l
    else l.(pending := l.pending + Elements(includes[key]),
            scans := l.scans + Singletons(includes[key]),
            armed := true)
  }

  /** A request that the next fire deliver nothing. */
  function SkipStep(l: ListenerState): ListenerState
  {
    l.(skip := true)
  }

  /** The timer body: consume the skip flag or deliver the pending set; in both
      cases the pending set is emptied and no timer remains scheduled. */
  function FireStep(l: ListenerState): ListenerState
    requires l.armed
  {
    if l.skip then l.(skip := false, pending := {}, armed := false)
    else l.(delivered := l.delivered + [l.pending], pending := {}, armed := false)
  }

  /** What a fire hands to the callback, if anything. */
  function Batch(l: ListenerState): Option<set<string>>
  {
    if l.skip then None else Some(l.pending)
  }

  /** The lengths of the two watched root directory names. */
  datatype Roots = Roots(includeRootLen: nat, scriptRootLen: nat)

  /** Everything that can happen to a listener between two fires. */
  datatype Event =
    | ScriptChanged(filename: string)
    | IncludeChanged(filename: string, includes: map<string, seq<string>>)
    | SkipRequested

  function Apply(l: ListenerState, roots: Roots, e: Event): ListenerState
  {
    match e
    case ScriptChanged(f) => ScriptStep(l, roots.scriptRootLen, f)
    case IncludeChanged(f, m) => IncludeStep(l, roots.includeRootLen, f, m)
    case SkipRequested => SkipStep(l)
  }

  /** A burst: events applied one after another, with no fire in between. */
  function ApplyAll(l: ListenerState, roots: Roots, es: seq<Event>): ListenerState
    decreases |es|
  {
    if |es| == 0 then l else ApplyAll(Apply(l, roots, es[0]), roots, es[1..])
  }

  /** The GUIDs one event adds to the pending set. */
  function Adds(roots: Roots, e: Event): set<string>
  {
    match e
    case ScriptChanged(f) => {Extract(f, roots.scriptRootLen)}
    case IncludeChanged(f, m) =>
      var key := IncludeKey(f, roots.includeRootLen);
      if key in m then Elements(m[key]) else {}
    case SkipRequested => {}
  }

  /** Whether one event (re)arms the timer. */
  predicate Arms(roots: Roots, e: Event)
  {
    e.ScriptChanged? || (e.IncludeChanged? && IncludeKey(e.filename, roots.includeRootLen) in e.includes)
  }

  /** The union of what every event of a burst adds. */
  function AddsAll(roots: Roots, es: seq<Event>): set<string>
    decreases |es|
  {
    if |es| == 0 then {} else Adds(roots, es[0]) + AddsAll(roots, es[1..])
  }

  /** Whether some event of a burst arms the timer. */
  predicate ArmsSome(roots: Roots, es: seq<Event>)
    decreases |es|
  {
    |es| > 0 && (Arms(roots, es[0]) || ArmsSome(roots, es[1..]))
  }

  /** Whether some event of a burst requests a skip. */
  predicate SkipsSome(es: seq<Event>)
    decreases |es|
  {
    |es| > 0 && (es[0].SkipRequested? || SkipsSome(es[1..]))
  }

  /** One event adds what `Adds` says, arms exactly when `Arms` says, sets the
      skip flag exactly for a skip request, and delivers nothing. */
  lemma ApplySummary(l: ListenerState, roots: Roots, e: Event)
    ensures Apply(l, roots, e).pending == l.pending + Adds(roots, e)
    ensures Apply(l, roots, e).armed == (l.armed || Arms(roots, e))
    ensures Apply(l, roots, e).skip == (l.skip || e.SkipRequested?)
    ensures Apply(l, roots, e).delivered == l.delivered
  {
  }

  /** A burst accumulates the union of what its events add, is armed after it
      exactly when it was before or some event armed it, has the skip flag set
      exactly when it was before or some event requested it, and delivers
      nothing. */
  lemma {:induction false} BurstSummary(l: ListenerState, roots: Roots, es: seq<Event>)
    ensures ApplyAll(l, roots, es).pending == l.pending + AddsAll(roots, es)
    ensures ApplyAll(l, roots, es).armed == (l.armed || ArmsSome(roots, es))
    ensures ApplyAll(l, roots, es).skip == (l.skip || SkipsSome(es))
    ensures ApplyAll(l, roots, es).delivered == l.delivered
    decreases |es|
  {
    if |es| > 0 {
      var l' := Apply(l, roots, es[0]);
      ApplySummary(l, roots, es[0]);
      BurstSummary(l', roots, es[1..]);
      assert ApplyAll(l, roots, es) == ApplyAll(l', roots, es[1..]);
      assert AddsAll(roots, es) == Adds(roots, es[0]) + AddsAll(roots, es[1..]);
      assert l.pending + Adds(roots, es[0]) + AddsAll(roots, es[1..]) == l.pending + AddsAll(roots, es);
    }
  }

  /** Every pending GUID has already been passed to the scanner. */
  ghost predicate Scanned(l: ListenerState)
  {
    forall g :: g in l.pending ==> [g] in l.scans
  }

  /** The invariant of every reachable state: no GUID is pending without having
      been rescanned, and none is pending without a fire scheduled for it. */
  ghost predicate Consistent(l: ListenerState)
  {
    Scanned(l) && (l.pending != {} ==> l.armed)
  }

  lemma InitialConsistent()
    ensures Consistent(Initial)
  {
  }

  /** The GUIDs of an include entry are all among the scanner calls made for it. */
  lemma SingletonsScanEach(guids: seq<string>, g: string)
    requires g in Elements(guids)
    ensures [g] in Singletons(guids)
  {
    var i :| 0 <= i < |guids| && guids[i] == g;
    assert Singletons(guids)[i] == [g];
  }

  /** Scanning a GUID, adding it and arming the timer keeps the invariant. */
  lemma ScanThenAddKeeps(l: ListenerState, guid: string)
    requires Consistent(l)
    ensures Consistent(l.(pending := l.pending + {guid}, scans := l.scans + [[guid]], armed := true))
  {
    var r := l.(pending := l.pending + {guid}, scans := l.scans + [[guid]], armed := true);
    assert r.scans[|l.scans|] == [guid];
  }

  /** So does scanning and adding every GUID of an entry, then arming. */
  lemma ScanAllThenAddKeeps(l: ListenerState, entry: seq<string>)
    requires Consistent(l)
    ensures Consistent(l.(pending := l.pending + Elements(entry),
                          scans := l.scans + Singletons(entry), armed := true))
  {
    var r := l.(pending := l.pending + Elements(entry),
                scans := l.scans + Singletons(entry), armed := true);
    forall g | g in r.pending ensures [g] in r.scans {
      if g !in l.pending {
        SingletonsScanEach(entry, g);
      }
    }
  }

  /** A script change keeps the invariant: it scans the GUID it adds and arms. */
  lemma ScriptStepKeeps(l: ListenerState, scriptRootLen: nat, filename: string)
    requires Consistent(l)
    ensures Consistent(ScriptStep(l, scriptRootLen, filename))
  {
    ScanThenAddKeeps(l, Extract(filename, scriptRootLen));
  }

  /** A matched include scans each GUID of the entry, so the invariant holds on. */
  lemma IncludeStepKeeps(l: ListenerState, includeRootLen: nat, filename: string,
                         includes: map<string, seq<string>>)
    requires Consistent(l)
    ensures Consistent(IncludeStep(l, includeRootLen, filename, includes))
  {
    var key := IncludeKey(filename, includeRootLen);
    if key in includes {
      ScanAllThenAddKeeps(l, includes[key]);
    }
  }

  /** Each event of a burst keeps the invariant. */
  lemma ApplyKeeps(l: ListenerState, roots: Roots, e: Event)
    requires Consistent(l)
    ensures Consistent(Apply(l, roots, e))
  {
    match e
    case ScriptChanged(f) => ScriptStepKeeps(l, roots.scriptRootLen, f);
    case IncludeChanged(f, m) => IncludeStepKeeps(l, roots.includeRootLen, f, m);
    case SkipRequested =>
  }

  /** So does a whole burst. */
  lemma {:induction false} ApplyAllKeeps(l: ListenerState, roots: Roots, es: seq<Event>)
    requires Consistent(l)
    ensures Consistent(ApplyAll(l, roots, es))
    decreases |es|
  {
    if |es| > 0 {
      ApplyKeeps(l, roots, es[0]);
      ApplyAllKeeps(Apply(l, roots, es[0]), roots, es[1..]);
    }
  }

  /** Every pending GUID has been scanned since position `m` of the scan log:
      with `m` the log's length when a burst began, each GUID pending at its end
      was rescanned during the burst, not merely at some earlier time. */
  ghost predicate FreshSince(l: ListenerState, m: nat)
  {
    m <= |l.scans| && forall g :: g in l.pending ==> [g] in l.scans[m..]
  }

  /** An event only appends to the scan log. */
  lemma ApplyExtendsScans(l: ListenerState, roots: Roots, e: Event)
    ensures |l.scans| <= |Apply(l, roots, e).scans|
    ensures Apply(l, roots, e).scans[..|l.scans|] == l.scans
  {
  }

  /** So does a burst. */
  lemma {:induction false} ApplyAllExtendsScans(l: ListenerState, roots: Roots, es: seq<Event>)
    ensures |l.scans| <= |ApplyAll(l, roots, es).scans|
    ensures ApplyAll(l, roots, es).scans[..|l.scans|] == l.scans
    decreases |es|
  {
    if |es| > 0 {
      var l1 := Apply(l, roots, es[0]);
      ApplyExtendsScans(l, roots, es[0]);
      ApplyAllExtendsScans(l1, roots, es[1..]);
      assert ApplyAll(l, roots, es).scans[..|l1.scans|][..|l.scans|] == l1.scans[..|l.scans|];
    }
  }

  /** A call found since `m` before the log grew, or among the calls appended,
      is found since `m` afterwards. */
  lemma InScansSince(scans: seq<seq<string>>, more: seq<seq<string>>, m: nat, call: seq<string>)
    requires m <= |scans|
    requires call in scans[m..] || call in more
    ensures call in (scans + more)[m..]
  {
    assert (scans + more)[m..] == scans[m..] + more;
  }

  /** Scanning a GUID and adding it in the same step keeps every pending GUID
      scanned since `m`. */
  lemma ScanThenAddFresh(l: ListenerState, guid: string, m: nat)
    requires FreshSince(l, m)
    ensures FreshSince(l.(pending := l.pending + {guid}, scans := l.scans + [[guid]]), m)
  {
    forall g | g in l.pending + {guid} ensures [g] in (l.scans + [[guid]])[m..] {
      InScansSince(l.scans, [[guid]], m, [g]);
    }
  }

  /** A script change scans the GUID it adds in the same step. */
  lemma ScriptStepFresh(l: ListenerState, scriptRootLen: nat, filename: string, m: nat)
    requires FreshSince(l, m)
    ensures FreshSince(ScriptStep(l, scriptRootLen, filename), m)
  {
    ScanThenAddFresh(l, Extract(filename, scriptRootLen), m);
  }

  /** Scanning and adding every GUID of an entry keeps every pending GUID
      scanned since `m`. */
  lemma ScanAllThenAddFresh(l: ListenerState, entry: seq<string>, m: nat)
    requires FreshSince(l, m)
    ensures FreshSince(l.(pending := l.pending + Elements(entry),
                          scans := l.scans + Singletons(entry)), m)
  {
    forall g | g in l.pending + Elements(entry)
      ensures [g] in (l.scans + Singletons(entry))[m..]
    {
      if g !in l.pending {
        SingletonsScanEach(entry, g);
      }
      InScansSince(l.scans, Singletons(entry), m, [g]);
    }
  }

  /** A matched include change scans each GUID it adds in the same step. */
  lemma IncludeStepFresh(l: ListenerState, includeRootLen: nat, filename: string,
                         includes: map<string, seq<string>>, m: nat)
    requires FreshSince(l, m)
    ensures FreshSince(IncludeStep(l, includeRootLen, filename, includes), m)
  {
    var key := IncludeKey(filename, includeRootLen);
    if key in includes {
      ScanAllThenAddFresh(l, includes[key], m);
    }
  }

  /** Each event keeps every pending GUID scanned since `m`. */
  lemma ApplyFresh(l: ListenerState, roots: Roots, e: Event, m: nat)
    requires FreshSince(l, m)
    ensures FreshSince(Apply(l, roots, e), m)
  {
    match e
    case ScriptChanged(f) => ScriptStepFresh(l, roots.scriptRootLen, f, m);
    case IncludeChanged(f, includes) => IncludeStepFresh(l, roots.includeRootLen, f, includes, m);
    case SkipRequested =>
  }

  /** ... and so does a whole burst. */
  lemma {:induction false} ApplyAllFresh(l: ListenerState, roots: Roots, es: seq<Event>, m: nat)
    requires FreshSince(l, m)
    ensures FreshSince(ApplyAll(l, roots, es), m)
    decreases |es|
  {
    if |es| > 0 {
      ApplyFresh(l, roots, es[0], m);
      ApplyAllFresh(Apply(l, roots, es[0]), roots, es[1..], m);
    }
  }

  /** A fire empties the pending set, which keeps the invariant trivially ... */
  lemma FireKeeps(l: ListenerState)
    requires l.armed && Consistent(l)
    ensures Consistent(FireStep(l))
  {
  }

  /** ... and what it delivers has been scanned. */
  lemma DeliveredWasScanned(l: ListenerState)
    requires l.armed && Consistent(l) && !l.skip
    ensures FireStep(l).delivered[|l.delivered|] == l.pending
    ensures forall g :: g in FireStep(l).delivered[|l.delivered|] ==> [g] in l.scans
  {
  }

  /** Debounce coalescing: starting with nothing pending and no skip requested,
      a burst that arms the timer at least once ends with one timer scheduled,
      and its fire delivers exactly one batch, the union of every GUID the
      burst added, each of which was rescanned during the burst. */
  lemma CoalescedDelivery(l: ListenerState, roots: Roots, es: seq<Event>)
    requires l.pending == {} && !l.skip
    requires ArmsSome(roots, es) && !SkipsSome(es)
    ensures ApplyAll(l, roots, es).armed
    ensures Batch(ApplyAll(l, roots, es)) == Some(AddsAll(roots, es))
    ensures FireStep(ApplyAll(l, roots, es)).delivered == l.delivered + [AddsAll(roots, es)]
    ensures FireStep(ApplyAll(l, roots, es)).pending == {}
    ensures forall g :: g in AddsAll(roots, es) ==> [g] in ApplyAll(l, roots, es).scans
    ensures |l.scans| <= |ApplyAll(l, roots, es).scans|
    ensures ApplyAll(l, roots, es).scans[..|l.scans|] == l.scans
    ensures FreshSince(ApplyAll(l, roots, es), |l.scans|)
  {
    BurstSummary(l, roots, es);
    assert ApplyAll(l, roots, es).pending == {} + AddsAll(roots, es) == AddsAll(roots, es);
    ApplyAllKeeps(l, roots, es);
    ApplyAllExtendsScans(l, roots, es);
    ApplyAllFresh(l, roots, es, |l.scans|);
  }

  /** Suppression: if a skip was requested before or during a burst, whichever
      burst produced the fire, the fire delivers nothing, clears the flag and
      discards the pending set. */
  lemma SuppressedDelivery(l: ListenerState, roots: Roots, es: seq<Event>)
    requires l.skip || SkipsSome(es)
    requires l.armed || ArmsSome(roots, es)
    ensures ApplyAll(l, roots, es).armed
    ensures Batch(ApplyAll(l, roots, es)) == None
    ensures FireStep(ApplyAll(l, roots, es)).delivered == l.delivered
    ensures !FireStep(ApplyAll(l, roots, es)).skip
    ensures FireStep(ApplyAll(l, roots, es)).pending == {}
  {
    BurstSummary(l, roots, es);
  }

  /** A burst of unmatched include changes and skip requests schedules no
      timer and leaves the pending set as it was. */
  lemma QuietBurst(l: ListenerState, roots: Roots, es: seq<Event>)
    requires !l.armed && !ArmsSome(roots, es)
    ensures !ApplyAll(l, roots, es).armed
    ensures ApplyAll(l, roots, es).pending == l.pending + AddsAll(roots, es)
    ensures AddsAll(roots, es) == {}
    decreases |es|
  {
    BurstSummary(l, roots, es);
    if |es| > 0 {
      QuietBurst(Apply(l, roots, es[0]), roots, es[1..]);
    }
  }

  /** An include change whose key is not in the map changes nothing at all. */
  lemma UnmatchedIncludeIsIgnored(l: ListenerState, includeRootLen: nat, filename: string,
                                  includes: map<string, seq<string>>)
    requires IncludeKey(filename, includeRootLen) !in includes
    ensures IncludeStep(l, includeRootLen, filename, includes) == l
  {
  }

  /** A matched include change scans every GUID of its entry as a one-element
      list, in the entry's order, adds them all and arms the timer. */
  lemma MatchedIncludeScansInOrder(l: ListenerState, includeRootLen: nat, filename: string,
                                   includes: map<string, seq<string>>)
    requires IncludeKey(filename, includeRootLen) in includes
    ensures var entry := includes[IncludeKey(filename, includeRootLen)];
            var r := IncludeStep(l, includeRootLen, filename, includes);
            && r.armed
            && r.pending == l.pending + Elements(entry)
            && |r.scans| == |l.scans| + |entry|
            && r.scans[..|l.scans|] == l.scans
            && (forall i :: 0 <= i < |entry| ==> r.scans[|l.scans| + i] == [entry[i]])
  {
  }

  /** The skip flag is a flag: requesting it twice is requesting it once. */
  lemma SkipIdempotent(l: ListenerState)
    ensures SkipStep(SkipStep(l)) == SkipStep(l)
  {
  }

  /** Suppression consumes exactly one fire: skip, then a change, then a fire
      delivers nothing; a later change and fire delivers just that change. */
  lemma SkipConsumedOnce(l: ListenerState, scriptRootLen: nat, first: string, second: string)
    ensures var l1 := ScriptStep(SkipStep(l), scriptRootLen, first);
            var l2 := FireStep(l1);
            var l3 := ScriptStep(l2, scriptRootLen, second);
            && l2.delivered == l.delivered
            && FireStep(l3).delivered == l.delivered + [{Extract(second, scriptRootLen)}]
  {
    var l2 := FireStep(ScriptStep(SkipStep(l), scriptRootLen, first));
    var l3 := ScriptStep(l2, scriptRootLen, second);
    assert l3.pending == {} + {Extract(second, scriptRootLen)} == {Extract(second, scriptRootLen)};
    assert !l3.skip;
  }

  /** Union semantics: a GUID added twice within one burst is delivered once. */
  lemma UnionWithinBurst(scriptRootLen: nat, first: string, includeRootLen: nat, second: string,
                         includes: map<string, seq<string>>, other: string)
    requires IncludeKey(second, includeRootLen) in includes
    requires includes[IncludeKey(second, includeRootLen)] == [Extract(first, scriptRootLen), other]
    ensures var l := IncludeStep(ScriptStep(Initial, scriptRootLen, first), includeRootLen, second, includes);
            FireStep(l).delivered == [{Extract(first, scriptRootLen), other}]
  {
    var a := Extract(first, scriptRootLen);
    var l := IncludeStep(ScriptStep(Initial, scriptRootLen, first), includeRootLen, second, includes);
    assert Elements([a, other]) == {a, other};
    assert l.pending == {} + {a} + {a, other} == {a, other};
    assert !l.skip && l.delivered == [];
  }

  /** An include whose entry is an empty list still arms the timer, so the
      callback can be handed an empty batch. */
  lemma EmptyEntryDeliversEmptyBatch(includeRootLen: nat, filename: string,
                                     includes: map<string, seq<string>>)
    requires IncludeKey(filename, includeRootLen) in includes
    requires includes[IncludeKey(filename, includeRootLen)] == []
    ensures IncludeStep(Initial, includeRootLen, filename, includes).armed
    ensures FireStep(IncludeStep(Initial, includeRootLen, filename, includes)).delivered == [{}]
  {
    var l := IncludeStep(Initial, includeRootLen, filename, includes);
    assert Elements([]) == {};
    assert l.pending == {} && !l.skip && l.delivered == [];
  }
}
