/** The counters of the agent loop described over whole runs: repeats, failures, verification. */
module Guards {
  import opened Results

  // ---------------------------------------------------------------- repeated signatures

  /** The repeat counter after a sequence of signatures: one more while they stay equal, else one. */
  function RepeatCount(s: seq<string>): nat {
    if s == [] then 0
    else if |s| > 1 && s[|s| - 1] == s[|s| - 2] then RepeatCount(s[..|s| - 1]) + 1
    else 1
  }

  /** `k` equal signatures in a row, from position `i` on. */
  ghost predicate Block(s: seq<string>, i: nat, k: nat) {
    i + k <= |s| && forall j :: i <= j < i + k ==> s[j] == s[i]
  }

  ghost predicate NoBlock(s: seq<string>, k: nat) {
    forall i: nat :: !Block(s, i, k)
  }

  /** The counter is the length of the trailing equal block. */
  lemma {:induction false} RepeatCountIsTrailingBlock(s: seq<string>)
    requires s != []
    ensures var b := RepeatCount(s);
      && 1 <= b <= |s| && Block(s, |s| - b, b)
      && (b < |s| ==> s[|s| - b - 1] != s[|s| - 1])
  {
    var n := |s| - 1;
    if |s| > 1 && s[n] == s[n - 1] {
      RepeatCountIsTrailingBlock(s[..n]);
      var b := RepeatCount(s[..n]);
      assert s[..n][n - b] == s[n - b] && s[..n][n - 1] == s[n - 1];
      assert forall j :: n - b <= j < n ==> s[..n][j] == s[j];
    }
  }

  /** A counter below `k` after one more signature means that no block of `k` has appeared. */
  lemma NoBlockSnoc(s: seq<string>, x: string, k: nat)
    requires NoBlock(s, k) && RepeatCount(s + [x]) < k
    ensures NoBlock(s + [x], k)
  {
    var t := s + [x];
    RepeatCountIsTrailingBlock(t);
    var b := RepeatCount(t);
    assert forall j :: 0 <= j < |s| ==> t[j] == s[j];
    forall i: nat ensures !Block(t, i, k) {
      assert !Block(s, i, k);
      assert |s| < i + k <= |t| ==> i <= |t| - b - 1 < i + k;
    }
  }

  // ---------------------------------------------------------------- failed rounds

  /** One finished round of tool calls: whether any call succeeded, whether any was denied by the budget. */
  datatype Round = Round(anySuccess: bool, denied: bool)

  function Failures(rounds: seq<Round>): nat {
    if rounds == [] then 0
    else
      var r := rounds[|rounds| - 1];
      if r.anySuccess then 0
      else if r.denied then Failures(rounds[..|rounds| - 1])
      else Failures(rounds[..|rounds| - 1]) + 1
  }

  function CountUndenied(rounds: seq<Round>): nat {
    if rounds == [] then 0
    else CountUndenied(rounds[..|rounds| - 1]) + if rounds[|rounds| - 1].denied then 0 else 1
  }

  /** The failure counter counts the undenied rounds since the last success. */
  lemma {:induction false} FailuresSinceSuccess(rounds: seq<Round>, i: nat)
    requires i <= |rounds| && (i == 0 || rounds[i - 1].anySuccess)
    requires forall j :: i <= j < |rounds| ==> !rounds[j].anySuccess
    ensures Failures(rounds) == CountUndenied(rounds[i..])
    decreases |rounds|
  {
    if i < |rounds| {
      var n := |rounds| - 1;
      FailuresSinceSuccess(rounds[..n], i);
      assert rounds[i..][..n - i] == rounds[..n][i..];
    }
  }

  lemma FailuresSnoc(rounds: seq<Round>, r: Round)
    ensures Failures(rounds + [r]) ==
      if r.anySuccess then 0 else if r.denied then Failures(rounds) else Failures(rounds) + 1
  {
    assert (rounds + [r])[..|rounds|] == rounds;
  }

  // ---------------------------------------------------------------- verification

  datatype Verification = NotApplicable | Verified | VerifyFailed | NotRun

  /** What an outcome carries for the loop: the path of a write, the purpose and exit code of a command. */
  datatype OutcomeData = OutcomeData(path: string, fingerprint: string, verify: bool, exitCode: int)

  datatype Effect = Effect(toolName: string, ok: bool, data: Option<OutcomeData>)

  predicate IsWrite(e: Effect) {
    e.ok && e.data.Some? && (e.toolName == "write_file" || e.toolName == "edit_file")
  }

  predicate IsVerify(e: Effect) {
    e.ok && e.data.Some? && e.toolName == "run_command" && e.data.value.verify
  }

  function Verdict(log: seq<Effect>): Verification {
    if log == [] then NotApplicable
    else
      var e := log[|log| - 1];
      if IsWrite(e) then NotRun
      else if IsVerify(e) then if e.data.value.exitCode == 0 then Verified else VerifyFailed
      else Verdict(log[..|log| - 1])
  }

  function WrittenPaths(log: seq<Effect>): set<string> {
    set i | 0 <= i < |log| && IsWrite(log[i]) && log[i].data.value.path != "" :: log[i].data.value.path
  }

  lemma LogSnoc(log: seq<Effect>, e: Effect)
    ensures Verdict(log + [e]) ==
      if IsWrite(e) then NotRun
      else if IsVerify(e) then if e.data.value.exitCode == 0 then Verified else VerifyFailed
      else Verdict(log)
    ensures WrittenPaths(log + [e]) == WrittenPaths(log)
      + if IsWrite(e) && e.data.value.path != "" then {e.data.value.path} else {}
  {
    var log1 := log + [e];
    assert log1[..|log|] == log;
    forall p
      ensures p in WrittenPaths(log1) <==>
        p in WrittenPaths(log) || (IsWrite(e) && e.data.value.path != "" && p == e.data.value.path) {
      if p in WrittenPaths(log) {
        var i :| 0 <= i < |log| && IsWrite(log[i]) && log[i].data.value.path != "" && log[i].data.value.path == p;
        assert log1[i] == log[i];
      }
      if IsWrite(e) && e.data.value.path == p { assert log1[|log|] == e; }
    }
  }

  /** The verify command at `j` is the last word: no later write, no later verification. */
  ghost predicate LastWord(log: seq<Effect>, j: nat) {
    j < |log| && IsVerify(log[j]) && forall k :: j < k < |log| ==> !IsWrite(log[k]) && !IsVerify(log[k])
  }

  /** Verified means that the last verify command, run after every write, exited with zero. */
  lemma {:induction false} VerdictMeans(log: seq<Effect>)
    ensures Verdict(log) == Verified <==>
      exists j :: 0 <= j < |log| && LastWord(log, j) && log[j].data.value.exitCode == 0
    decreases |log|
  {
    if log != [] {
      var n := |log| - 1;
      var init := log[..n];
      VerdictMeans(init);
      if j :| 0 <= j < n && LastWord(init, j) && init[j].data.value.exitCode == 0 {
        if !IsWrite(log[n]) && !IsVerify(log[n]) {
          assert LastWord(log, j);
        }
      }
      if j :| 0 <= j < |log| && LastWord(log, j) && log[j].data.value.exitCode == 0 {
        if j < n { assert LastWord(init, j) && init[j] == log[j]; }
      }
      if IsVerify(log[n]) { assert LastWord(log, n); }
    }
  }

  // ---------------------------------------------------------------- completion policy

  datatype Decision = Complete | Defer

  function Decide(hasChanges: bool, verification: Verification, stepCount: nat, maxSteps: nat,
                  deferred: bool): Decision {
    if !hasChanges || verification.Verified? then Complete
    else if deferred || stepCount >= maxSteps then Complete
    else Defer
  }
}
