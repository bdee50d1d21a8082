/**
 * The tool-call pass of a chat turn: every requested call named `log_mistake`
 * stores one mistake, in request order, with its arguments mapped field for field;
 * calls of any other name store nothing. A `log_mistake` call that lacks one of the
 * five argument keys raises a lookup error, which ends the pass (and the turn).
 */
module ToolCalls {
  import opened Types
  import opened Mistakes

  const LogMistake: string := "log_mistake"

  /** A tool-invocation request as the model returns it: a name and string arguments. */
  datatype ToolCall = ToolCall(name: string, args: map<string, string>)

  /** The five argument keys the mistake-logging call reads. */
  predicate HasFields(args: map<string, string>)
  {
    && "native_lang" in args
    && "target_lang" in args
    && "error_sentence" in args
    && "corrected_sentence" in args
    && "error_type" in args
  }

  /** The record a well-formed `log_mistake` call asks to store. */
  function ToRecord(args: map<string, string>): (r: MistakeRecord)
    requires HasFields(args)
  {
    MistakeRecord(args["native_lang"], args["target_lang"], args["error_sentence"],
                  args["corrected_sentence"], args["error_type"])
  }

  /** What the pass leaves behind: the rows it added and whether a missing key cut it short. */
  datatype ToolPass = ToolPass(stored: seq<MistakeRecord>, aborted: bool)

  /**
   * The effect of processing `calls` from first to last, where `fault(i)` is what goes
   * wrong while storing the record of the call at position `i`. Defined on the last
   * call so that it follows the loop that performs the pass.
   */
  function ProcessToolCalls(calls: seq<ToolCall>, fault: nat -> StorageFault): (r: ToolPass)
    ensures |r.stored| <= |calls|
    ensures forall m :: m in r.stored ==>
      exists c :: c in calls && c.name == LogMistake && HasFields(c.args) && ToRecord(c.args) == m
    decreases |calls|
  {
    if calls == [] then ToolPass([], false)
    else
      var n := |calls| - 1;
      var pre := ProcessToolCalls(calls[..n], fault);
      var c := calls[n];
      if pre.aborted || c.name != LogMistake then pre
      else if !HasFields(c.args) then ToolPass(pre.stored, true)
      else if fault(n) != NoFault then pre
      else ToolPass(pre.stored + [ToRecord(c.args)], false)
  }

  /** No call of the pass is a `log_mistake` call missing one of its keys. */
  predicate WellFormed(calls: seq<ToolCall>)
  {
    forall c :: c in calls && c.name == LogMistake ==> HasFields(c.args)
  }

  /**
   * Reference definition, read from the front: the records the well-formed
   * `log_mistake` calls among `calls` ask for, in request order, duplicates kept.
   */
  function Requested(calls: seq<ToolCall>): (r: seq<MistakeRecord>)
    requires WellFormed(calls)
    ensures |r| <= |calls|
  {
    if calls == [] then []
    else
      assert WellFormed(calls[1..]) by {
        forall c | c in calls[1..] ensures c in calls { }
      }
      (if calls[0].name == LogMistake then [ToRecord(calls[0].args)] else []) + Requested(calls[1..])
  }

  /**
   * When every `log_mistake` call carries its five keys and every insert succeeds,
   * the pass completes and stores exactly the requested records, in order.
   */
  lemma ProcessMatchesRequested(calls: seq<ToolCall>, fault: nat -> StorageFault)
    requires WellFormed(calls)
    requires forall i :: 0 <= i < |calls| ==> fault(i) == NoFault
    ensures ProcessToolCalls(calls, fault) == ToolPass(Requested(calls), false)
  {
    ProcessMatchesKept(calls, fault);
    KeptWithoutFaults(calls, fault, 0);
  }

  /**
   * Reference definition, read from the front, for any storage faults: the records of
   * the well-formed `log_mistake` calls among `calls` whose insert succeeds, in request
   * order, where the first call of `calls` sits at position `base` of the whole pass.
   */
  function Kept(calls: seq<ToolCall>, fault: nat -> StorageFault, base: nat): (r: seq<MistakeRecord>)
    requires WellFormed(calls)
    ensures |r| <= |calls|
  {
    if calls == [] then []
    else
      assert WellFormed(calls[1..]) by {
        forall c | c in calls[1..] ensures c in calls { }
      }
      (if calls[0].name == LogMistake && fault(base) == NoFault then [ToRecord(calls[0].args)] else [])
      + Kept(calls[1..], fault, base + 1)
  }

  lemma {:induction false} KeptSnoc(calls: seq<ToolCall>, c: ToolCall, fault: nat -> StorageFault, base: nat)
    requires WellFormed(calls + [c])
    ensures WellFormed(calls)
    ensures Kept(calls + [c], fault, base)
         == Kept(calls, fault, base)
            + (if c.name == LogMistake && fault(base + |calls|) == NoFault then [ToRecord(c.args)] else [])
    decreases |calls|
  {
    assert forall d :: d in calls ==> d in calls + [c];
    if calls != [] {
      assert (calls + [c])[1..] == calls[1..] + [c];
      KeptSnoc(calls[1..], c, fault, base + 1);
    }
  }

  /**
   * When every `log_mistake` call carries its five keys, the pass never ends early,
   * whatever the storage faults, and it stores one record for each such call whose
   * insert succeeds, in request order; a failed insert stores nothing and the pass goes on.
   */
  lemma {:induction false} ProcessMatchesKept(calls: seq<ToolCall>, fault: nat -> StorageFault)
    requires WellFormed(calls)
    ensures ProcessToolCalls(calls, fault) == ToolPass(Kept(calls, fault, 0), false)
    decreases |calls|
  {
    if calls != [] {
      var n := |calls| - 1;
      assert calls == calls[..n] + [calls[n]];
      assert forall d :: d in calls[..n] ==> d in calls;
      ProcessMatchesKept(calls[..n], fault);
      KeptSnoc(calls[..n], calls[n], fault, 0);
    }
  }

  /** Where no insert fails, the records kept are exactly the records requested. */
  lemma {:induction false} KeptWithoutFaults(calls: seq<ToolCall>, fault: nat -> StorageFault, base: nat)
    requires WellFormed(calls)
    requires forall i :: base <= i < base + |calls| ==> fault(i) == NoFault
    ensures Kept(calls, fault, base) == Requested(calls)
    decreases |calls|
  {
    if calls != [] {
      assert fault(base) == NoFault;
      assert forall c :: c in calls[1..] ==> c in calls;
      KeptWithoutFaults(calls[1..], fault, base + 1);
    }
  }

  /** Storage faults never end the pass: only a missing argument key does. */
  lemma {:induction false} WellFormedNeverAborts(calls: seq<ToolCall>, fault: nat -> StorageFault)
    requires WellFormed(calls)
    ensures !ProcessToolCalls(calls, fault).aborted
  {
    ProcessMatchesKept(calls, fault);
  }

  lemma {:induction false} RequestedAppend(a: seq<ToolCall>, b: seq<ToolCall>)
    requires WellFormed(a + b)
    ensures WellFormed(a) && WellFormed(b)
    ensures Requested(a + b) == Requested(a) + Requested(b)
    decreases |a|
  {
    assert forall d :: d in a ==> d in a + b;
    assert forall d :: d in b ==> d in a + b;
    if a == [] {
      assert a + b == b;
    } else {
      assert (a + b)[1..] == a[1..] + b;
      RequestedAppend(a[1..], b);
    }
  }

  /**
   * There is no deduplication: the same requests made twice ask for every record
   * twice, so repeated mistakes are all stored.
   */
  lemma RequestedRepeats(calls: seq<ToolCall>)
    requires WellFormed(calls)
    ensures WellFormed(calls + calls)
    ensures Requested(calls + calls) == Requested(calls) + Requested(calls)
  {
    assert forall d :: d in calls + calls ==> d in calls;
    RequestedAppend(calls, calls);
  }

  /** Once a missing key has ended the pass, the remaining calls change nothing. */
  lemma {:induction false} AbortIsFinal(calls: seq<ToolCall>, k: nat, fault: nat -> StorageFault)
    requires k <= |calls|
    requires ProcessToolCalls(calls[..k], fault).aborted
    ensures ProcessToolCalls(calls, fault) == ProcessToolCalls(calls[..k], fault)
    decreases |calls| - k
  {
    if k < |calls| {
      var n := |calls| - 1;
      assert calls[..k] == calls[..n][..k];
      AbortIsFinal(calls[..n], k, fault);
    } else {
      assert calls[..k] == calls;
    }
  }

  /** Calls of any other name store nothing and never cut the pass short. */
  lemma {:induction false} OtherToolsStoreNothing(calls: seq<ToolCall>, fault: nat -> StorageFault)
    requires forall c :: c in calls ==> c.name != LogMistake
    ensures ProcessToolCalls(calls, fault) == ToolPass([], false)
    decreases |calls|
  {
    if calls != [] {
      var n := |calls| - 1;
      assert forall d :: d in calls[..n] ==> d in calls;
      OtherToolsStoreNothing(calls[..n], fault);
    }
  }

  /** When every insert fails, the table gains nothing, whatever the calls request. */
  lemma {:induction false} FaultsStoreNothing(calls: seq<ToolCall>, fault: nat -> StorageFault)
    requires forall i :: 0 <= i < |calls| ==> fault(i) != NoFault
    ensures ProcessToolCalls(calls, fault).stored == []
    decreases |calls|
  {
    if calls != [] {
      FaultsStoreNothing(calls[..|calls| - 1], fault);
    }
  }

  /**
   * There is no deduplication: a further well-formed `log_mistake` call whose insert
   * succeeds adds its record, even when an identical record was stored earlier.
   */
  lemma {:induction false} NoDeduplication(calls: seq<ToolCall>, c: ToolCall, fault: nat -> StorageFault)
    requires c.name == LogMistake && HasFields(c.args)
    requires !ProcessToolCalls(calls, fault).aborted
    requires fault(|calls|) == NoFault
    ensures ProcessToolCalls(calls + [c], fault)
         == ToolPass(ProcessToolCalls(calls, fault).stored + [ToRecord(c.args)], false)
  {
  }

  /** A `log_mistake` call without all five keys ends the pass, keeping what was stored before it. */
  lemma {:induction false} MissingKeyAborts(calls: seq<ToolCall>, c: ToolCall, fault: nat -> StorageFault)
    requires c.name == LogMistake && !HasFields(c.args)
    requires !ProcessToolCalls(calls, fault).aborted
    ensures ProcessToolCalls(calls + [c], fault)
         == ToolPass(ProcessToolCalls(calls, fault).stored, true)
  {
  }
}
