/**
 The file listener object: the pending set, the skip flag and the one timer
 slot, updated in place by the change handlers and by the timer body.

 The watchers that call the handlers, the real timer and the include scanner
 are outside: a handler is a method call, the include map the scanner would
 return is a parameter, each scanner call is recorded in the ghost log
 `scans`, the timer is the flag `armed` with the timer body as the method
 `Fire`, and each batch handed to the callback is returned by `Fire` and
 recorded in the ghost log `delivered`. Each handler and `Fire` is proved to
 follow the matching step function of ListenerSpec.
 */
module Listener {
  import opened PathResolver
  import opened ListenerSpec

  class FileListener {
    /** Lengths of the include and script root directory names. */
    const includeRootLen: nat
    const scriptRootLen: nat

    var updatedFiles: set<string>
    var skip: bool
    /** Whether a timer is scheduled; the single slot means at most one is. */
    var armed: bool

    /** Argument of every scanner call, in call order. */
    ghost var scans: seq<seq<string>>
    /** Every batch handed to the callback, in order. */
    ghost var delivered: seq<set<string>>

    ghost function State(): ListenerState
      reads this
    {
      ListenerState(updatedFiles, skip, armed, scans, delivered)
    }

    /** The object invariant: every pending GUID has been rescanned, and a
        non-empty pending set always has a fire scheduled. */
    ghost predicate Valid()
      reads this
    {
      Consistent(State())
    }

    /** Nothing pending, no timer, skip unset. */
    constructor (includeRootLen: nat, scriptRootLen: nat)
      ensures this.includeRootLen == includeRootLen && this.scriptRootLen == scriptRootLen
      ensures State() == Initial && Valid()
    {
      this.includeRootLen := includeRootLen;
      this.scriptRootLen := scriptRootLen;
      updatedFiles := {};
      skip := false;
      armed := false;
      scans := [];
      delivered := [];
    }

    /** Do not deliver the batch of the next fire. */
    method SkipNextUpdate()
      requires Valid()
      modifies this
      ensures Valid()
      ensures State() == SkipStep(old(State()))
      ensures skip
      ensures updatedFiles == old(updatedFiles) && armed == old(armed)
      ensures scans == old(scans) && delivered == old(delivered)
    {
      skip := true;
    }

    /** A change under the include root: look the key up in the scanner's
        map; when it is there, scan and add each of its GUIDs in turn, then
        re-arm the timer. */
    method IncludeUpdate(filename: string, includes: map<string, seq<string>>)
      requires Valid()
      modifies this
      ensures Valid()
      ensures State() == IncludeStep(old(State()), includeRootLen, filename, includes)
      ensures IncludeKey(filename, includeRootLen) !in includes ==> State() == old(State())
      ensures IncludeKey(filename, includeRootLen) in includes ==>
                var entry := includes[IncludeKey(filename, includeRootLen)];
                && updatedFiles == old(updatedFiles) + Elements(entry)
                && scans == old(scans) + Singletons(entry)
                && armed
      ensures skip == old(skip) && delivered == old(delivered)
    {
      ghost var s0 := State();
      var scriptName := IncludeKey(filename, includeRootLen);
      if scriptName !in includes {
        return;
      }
      ScanAndAdd(includes[scriptName]);
      SetTimer();
      assert State() == IncludeStep(s0, includeRootLen, filename, includes);
      IncludeStepKeeps(s0, includeRootLen, filename, includes);
    }

    /** The loop over an include-map entry: each GUID in turn is passed to
        the scanner as a one-element list and then added. */
    method ScanAndAdd(guids: seq<string>)
      modifies this
      ensures updatedFiles == old(updatedFiles) + Elements(guids)
      ensures scans == old(scans) + Singletons(guids)
      ensures skip == old(skip) && armed == old(armed) && delivered == old(delivered)
    {
      for i := 0 to |guids|
        invariant updatedFiles == old(updatedFiles) + Elements(guids[..i])
        invariant scans == old(scans) + Singletons(guids[..i])
        invariant skip == old(skip) && armed == old(armed) && delivered == old(delivered)
      {
        ScanAndAddGuid(guids[i]);
        ElementsSnoc(guids, i);
        SingletonsSnoc(guids, i);
      }
      assert guids[..|guids|] == guids;
    }

    /** One scanner call `[guid]` followed by adding the GUID to the pending
        set: the body of the include loop and of the script handler. It keeps
        every pending GUID scanned. */
    method ScanAndAddGuid(guid: string)
      modifies this
      ensures Scanned(old(State())) ==> Scanned(State())
      ensures updatedFiles == old(updatedFiles) + {guid}
      ensures scans == old(scans) + [[guid]]
      ensures skip == old(skip) && armed == old(armed) && delivered == old(delivered)
    {
      scans := scans + [[guid]];
      updatedFiles := updatedFiles + {guid};
      assert scans[|old(scans)|] == [guid];
    }

    /** A change under the script root: scan and add its GUID, re-arm. */
    method ScriptUpdate(filename: string)
      requires Valid()
      modifies this
      ensures Valid()
      ensures State() == ScriptStep(old(State()), scriptRootLen, filename)
      ensures updatedFiles == old(updatedFiles) + {Extract(filename, scriptRootLen)}
      ensures scans == old(scans) + [[Extract(filename, scriptRootLen)]]
      ensures armed && skip == old(skip) && delivered == old(delivered)
    {
      var guid := Extract(filename, scriptRootLen);
      ScanAndAddGuid(guid);
      SetTimer();
    }

    /** Cancel any scheduled timer and schedule a new one: afterwards exactly
        one is scheduled, whatever was before. */
    method SetTimer()
      modifies `armed
      ensures armed
    {
      armed := true;
    }

    /** The timer body. With the skip flag set it clears the flag and hands
        nothing on; otherwise it hands the pending set to the callback
        (returned here as the batch). Either way the pending set is emptied. */
    method Fire() returns (batch: Option<set<string>>)
      requires armed && Valid()
      modifies this
      ensures Valid()
      ensures batch.Some? ==> forall g :: g in batch.value ==> [g] in scans
      ensures State() == FireStep(old(State()))
      ensures batch == Batch(old(State()))
      ensures batch == if old(skip) then None else Some(old(updatedFiles))
      ensures delivered == if old(skip) then old(delivered) else old(delivered) + [old(updatedFiles)]
      ensures updatedFiles == {} && !skip && !armed && scans == old(scans)
    {
      if skip {
        skip := false;
        batch := None;
      } else {
        batch := Some(updatedFiles);
        delivered := delivered + [updatedFiles];
      }
      updatedFiles := {};
      armed := false;
    }
  }

  /** A burst of two script changes and a matched include change, then the
      fire: one batch, the union of all the GUIDs. */
  method BurstThenFire(listener: FileListener, a: string, b: string, c: string,
                       includes: map<string, seq<string>>)
    requires listener.Valid() && !listener.skip && listener.updatedFiles == {}
    requires IncludeKey(c, listener.includeRootLen) in includes
    modifies listener
    ensures listener.delivered == old(listener.delivered) +
              [{Extract(a, listener.scriptRootLen), Extract(b, listener.scriptRootLen)}
               + Elements(includes[IncludeKey(c, listener.includeRootLen)])]
    ensures listener.updatedFiles == {} && !listener.armed
  {
    listener.ScriptUpdate(a);
    listener.ScriptUpdate(b);
    listener.IncludeUpdate(c, includes);
    assert listener.updatedFiles ==
      {Extract(a, listener.scriptRootLen), Extract(b, listener.scriptRootLen)}
      + Elements(includes[IncludeKey(c, listener.includeRootLen)]);
    var batch := listener.Fire();
  }
}
