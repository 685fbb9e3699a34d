/**
 * The loop every archive assembler runs: one head call (the `bcf.version` file), then for each
 * topic, in order, the calls of one iteration. An iteration that throws ends the build with
 * its error, and the topics after it are never looked at.
 */
module Assembly {
  import opened Wrappers
  import opened Archive

  /** The calls an assembler makes for `topics`, or the first iteration's failure; `step(t, i)` is the iteration for topic `t` at position `i`. */
  function Run<T>(head: Write, topics: seq<T>, step: (T, nat) -> Result<seq<Write>>): Result<seq<Write>> {
    if topics == [] then Ok([head])
    else
      var before := Run(head, topics[..|topics| - 1], step);
      if before.Err? then before
      else
        var block := step(topics[|topics| - 1], |topics| - 1);
        if block.Err? then Err(block.error) else Ok(before.value + block.value)
  }

  /** A failure stays the outcome: once a prefix of the topics fails, so does the whole list, with the same error. */
  lemma {:induction false} ErrorPersists<T>(head: Write, topics: seq<T>, step: (T, nat) -> Result<seq<Write>>, m: nat)
    requires m <= |topics|
    requires Run(head, topics[..m], step).Err?
    ensures Run(head, topics, step) == Run(head, topics[..m], step)
    decreases |topics|
  {
    if m < |topics| {
      var prefix := topics[..|topics| - 1];
      assert prefix[..m] == topics[..m];
      ErrorPersists(head, prefix, step, m);
    } else {
      assert topics[..m] == topics;
    }
  }

  /** The run succeeds exactly when every iteration does, and it then starts with the head call. */
  lemma {:induction false} RunOk<T>(head: Write, topics: seq<T>, step: (T, nat) -> Result<seq<Write>>)
    ensures Run(head, topics, step).Ok? <==> forall k :: 0 <= k < |topics| ==> step(topics[k], k).Ok?
    ensures Run(head, topics, step).Ok? ==> |Run(head, topics, step).value| > 0 && Run(head, topics, step).value[0] == head
  {
    if topics != [] {
      var n := |topics| - 1;
      RunOk(head, topics[..n], step);
      assert forall k :: 0 <= k < n ==> topics[..n][k] == topics[k];
    }
  }

  /** Extending the topics by one runs one more iteration after the run of the shorter list. */
  lemma RunSnoc<T>(head: Write, topics: seq<T>, step: (T, nat) -> Result<seq<Write>>, i: nat)
    requires i < |topics| && Run(head, topics[..i], step).Ok?
    ensures var block := step(topics[i], i);
            Run(head, topics[..i + 1], step) ==
            if block.Err? then Err(block.error) else Ok(Run(head, topics[..i], step).value + block.value)
  {
    assert topics[..i + 1][..i] == topics[..i];
  }

  /** The first iteration that fails decides the error of the run. */
  lemma FirstFailureDecides<T>(head: Write, topics: seq<T>, step: (T, nat) -> Result<seq<Write>>, k: nat)
    requires k < |topics| && step(topics[k], k).Err?
    requires forall j :: 0 <= j < k ==> step(topics[j], j).Ok?
    ensures Run(head, topics, step) == Err(step(topics[k], k).error)
  {
    var prefix := topics[..k];
    RunOk(head, prefix, step);
    assert forall j :: 0 <= j < k ==> prefix[j] == topics[j];
    assert topics[..k + 1][..k] == prefix;
    ErrorPersists(head, topics, step, k + 1);
  }

  /** Every successful iteration makes exactly four calls. */
  predicate Quartets<T>(topics: seq<T>, step: (T, nat) -> Result<seq<Write>>) {
    forall k :: 0 <= k < |topics| && step(topics[k], k).Ok? ==> |step(topics[k], k).value| == 4
  }

  /** With four calls per iteration, topic `k`'s calls are the four from position `1 + 4 * k` on. */
  lemma {:induction false} RunBlock<T>(head: Write, topics: seq<T>, step: (T, nat) -> Result<seq<Write>>, k: nat)
    requires Run(head, topics, step).Ok? && Quartets(topics, step) && k < |topics|
    ensures step(topics[k], k).Ok?
    ensures var ws := Run(head, topics, step).value;
            |ws| == 1 + 4 * |topics| && ws[1 + 4 * k..5 + 4 * k] == step(topics[k], k).value
  {
    var n := |topics| - 1;
    var prefix := topics[..n];
    RunOk(head, topics, step);
    assert forall j :: 0 <= j < n ==> prefix[j] == topics[j];
    var ws := Run(head, topics, step).value;
    var before := Run(head, prefix, step).value;
    var block := step(topics[n], n).value;
    assert ws == before + block;
    if k < n {
      RunBlock(head, prefix, step, k);
      assert ws[1 + 4 * k..5 + 4 * k] == before[1 + 4 * k..5 + 4 * k];
    } else {
      if n > 0 {
        RunBlock(head, prefix, step, n - 1);
      } else {
        assert |before| == 1;
      }
      assert ws[1 + 4 * k..5 + 4 * k] == block;
    }
  }

  /** The folder each topic's calls go into. */
  function FolderNames<T>(topics: seq<T>, folder: (T, nat) -> string): (fs: seq<string>)
    ensures |fs| == |topics| && forall k :: 0 <= k < |topics| ==> fs[k] == folder(topics[k], k)
  {
    seq(|topics|, k requires 0 <= k < |topics| => folder(topics[k], k))
  }

  /** When every successful iteration makes four calls inside its topic's folder, a successful run is `Blocked`. */
  lemma RunBlocked<T>(head: Write, topics: seq<T>, step: (T, nat) -> Result<seq<Write>>, folder: (T, nat) -> string)
    requires Run(head, topics, step).Ok? && Quartets(topics, step)
    requires forall k :: 0 <= k < |topics| && step(topics[k], k).Ok? ==> InBlock(step(topics[k], k).value, folder(topics[k], k))
    ensures Blocked(Run(head, topics, step).value, FolderNames(topics, folder))
  {
    var ws := Run(head, topics, step).value;
    var fs := FolderNames(topics, folder);
    forall j | 0 <= j < |topics|
      ensures InBlock(ws[1 + 4 * j..5 + 4 * j], fs[j])
    {
      RunBlock(head, topics, step, j);
    }
    if topics == [] {
      assert |ws| == 1;
    } else {
      RunBlock(head, topics, step, 0);
    }
  }
}
