/** The configuration loader and validator (Config.cpp, headers/Config.h).
    The file is given as the sequence of `key value` pairs that the stream
    extraction reads from it, with each value already converted; `None`
    stands for a file that cannot be opened. */
module Configuration {
  import opened Wrappers

  /** The range of the `uint32_t` fields. */
  const U32Limit := 0x1_0000_0000
  type U32 = x: int | 0 <= x < U32Limit

  /** A stored `uint32_t` keeps its value modulo 2^32. */
  function ToU32(n: int): U32 { n % U32Limit }

  /** One parameter read from the file: its key, the value as the word
      read, and the value as the number it converts to. */
  datatype Token = Token(key: string, word: string, number: int)

  /** The seven required keys, in the order `std::map` visits them. */
  const RequiredParams: seq<string> :=
    ["batch-process-freq", "delays-per-exec", "max-ins", "min-ins",
     "num-cpu", "quantum-cycles", "scheduler"]

  predicate KnownKey(key: string)
  {
    key in RequiredParams
  }

  /** Every failure the loader reports, with the offending key or value. */
  datatype ConfigError =
    | CannotOpen
    | UnknownParameter(param: string)
    | MissingParameter(param: string)
    | InvalidNumCpu(numCpu: int)
    | InvalidScheduler(scheduler: string)
    | InvalidQuantumCycles(quantumCycles: int)
    | InvalidBatchProcessFreq(batchProcessFreq: int)
    | InvalidMinIns(minIns: int)
    | InvalidMaxIns(maxIns: int)
    | InvalidDelaysPerExec(delaysPerExec: int)

  /** The parameter fields of a configuration, as a value. */
  datatype Settings = Settings(numCpu: int, scheduler: string, quantumCycles: U32,
                               batchProcessFreq: U32, minIns: U32, maxIns: U32,
                               delaysPerExec: U32)

  /** A parameter value as stored: a word for the scheduler, a number otherwise. */
  datatype Value = Number(n: int) | Word(w: string)

  /** The stored value of the field a key names. */
  function Field(s: Settings, key: string): Value
    requires KnownKey(key)
  {
    if key == "num-cpu" then Number(s.numCpu)
    else if key == "scheduler" then Word(s.scheduler)
    else if key == "quantum-cycles" then Number(s.quantumCycles)
    else if key == "batch-process-freq" then Number(s.batchProcessFreq)
    else if key == "min-ins" then Number(s.minIns)
    else if key == "max-ins" then Number(s.maxIns)
    else Number(s.delaysPerExec)
  }

  /** The value a token stores in the field it names. */
  function Converted(t: Token): Value
  {
    if t.key == "scheduler" then Word(t.word)
    else if t.key == "num-cpu" then Number(t.number)
    else Number(ToU32(t.number))
  }

  /** Reading one known token overwrites the field of its key and no other. */
  function Apply(s: Settings, t: Token): (r: Settings)
    requires KnownKey(t.key)
    ensures Field(r, t.key) == Converted(t)
    ensures forall key :: KnownKey(key) && key != t.key ==> Field(r, key) == Field(s, key)
  {
    if t.key == "num-cpu" then s.(numCpu := t.number)
    else if t.key == "scheduler" then s.(scheduler := t.word)
    else if t.key == "quantum-cycles" then s.(quantumCycles := ToU32(t.number))
    else if t.key == "batch-process-freq" then s.(batchProcessFreq := ToU32(t.number))
    else if t.key == "min-ins" then s.(minIns := ToU32(t.number))
    else if t.key == "max-ins" then s.(maxIns := ToU32(t.number))
    else s.(delaysPerExec := ToU32(t.number))
  }

  predicate AllKnown(tokens: seq<Token>)
  {
    forall j :: 0 <= j < |tokens| ==> KnownKey(tokens[j].key)
  }

  /** The settings after reading every token of a fully known sequence in order. */
  function ApplyAll(s: Settings, tokens: seq<Token>): Settings
    requires AllKnown(tokens)
  {
    if tokens == [] then s
    else Apply(ApplyAll(s, tokens[..|tokens| - 1]), tokens[|tokens| - 1])
  }

  /** The position of the first token with an unknown key, or -1. */
  function FirstUnknown(tokens: seq<Token>): (i: int)
    ensures -1 <= i < |tokens|
    ensures i == -1 <==> AllKnown(tokens)
    ensures i >= 0 ==> !KnownKey(tokens[i].key) && AllKnown(tokens[..i])
  {
    if tokens == [] then -1
    else if !KnownKey(tokens[0].key) then 0
    else
      var j := FirstUnknown(tokens[1..]);
      assert tokens[1..][..if j < 0 then 0 else j] == tokens[1..if j < 0 then 1 else j + 1];
      if j == -1 then -1 else j + 1
  }

  /** The tokens read before the first unknown key stops the loader. */
  function ReadPrefix(tokens: seq<Token>): (p: seq<Token>)
    ensures AllKnown(p) && p <= tokens
  {
    var i := FirstUnknown(tokens);
    if i == -1 then tokens else tokens[..i]
  }

  /** The keys the sequence supplies. */
  function Seen(tokens: seq<Token>): set<string>
  {
    set j | 0 <= j < |tokens| :: tokens[j].key
  }

  /** The first required key, in map order, that the given keys miss. */
  function FirstMissing(seen: set<string>): (m: Option<string>)
    ensures m.None? <==> forall j :: 0 <= j < |RequiredParams| ==> RequiredParams[j] in seen
    ensures m.Some? ==> KnownKey(m.value) && m.value !in seen
    ensures m.Some? ==>
              exists j :: 0 <= j < |RequiredParams| && RequiredParams[j] == m.value
                && forall k :: 0 <= k < j ==> RequiredParams[k] in seen
  {
    FirstMissingFrom(seen, 0)
  }

  function FirstMissingFrom(seen: set<string>, i: nat): (m: Option<string>)
    requires i <= |RequiredParams|
    ensures m.None? <==> forall j :: i <= j < |RequiredParams| ==> RequiredParams[j] in seen
    ensures m.Some? ==> m.value !in seen
    ensures m.Some? ==>
              exists j :: i <= j < |RequiredParams| && RequiredParams[j] == m.value
                && forall k :: i <= k < j ==> RequiredParams[k] in seen
    decreases |RequiredParams| - i
  {
    if i == |RequiredParams| then None
    else if RequiredParams[i] !in seen then Some(RequiredParams[i])
    else FirstMissingFrom(seen, i + 1)
  }

  /** The range checks, in order; the first that fails is reported. */
  function Validate(s: Settings): Outcome<ConfigError>
  {
    if s.numCpu < 1 || s.numCpu > 128 then Fail(InvalidNumCpu(s.numCpu))
    else if s.scheduler != "fcfs" && s.scheduler != "rr" then Fail(InvalidScheduler(s.scheduler))
    else if s.quantumCycles < 1 then Fail(InvalidQuantumCycles(s.quantumCycles))
    else if s.batchProcessFreq < 1 then Fail(InvalidBatchProcessFreq(s.batchProcessFreq))
    else if s.minIns < 1 then Fail(InvalidMinIns(s.minIns))
    else if s.maxIns < s.minIns then Fail(InvalidMaxIns(s.maxIns))
    else if s.delaysPerExec < 0 then Fail(InvalidDelaysPerExec(s.delaysPerExec))
    else Pass
  }

  /** The conditions a usable configuration meets. */
  predicate ValidSettings(s: Settings)
  {
    1 <= s.numCpu <= 128 && s.scheduler in {"fcfs", "rr"} && s.quantumCycles >= 1
    && s.batchProcessFreq >= 1 && s.minIns >= 1 && s.maxIns >= s.minIns
  }

  /** What loading a file reports, starting from the settings s. */
  function LoadOutcome(file: Option<seq<Token>>, s: Settings): Outcome<ConfigError>
  {
    if file.None? then Fail(CannotOpen)
    else
      var tokens := file.value;
      var i := FirstUnknown(tokens);
      if i != -1 then Fail(UnknownParameter(tokens[i].key))
      else
        var missing := FirstMissing(Seen(tokens));
        if missing.Some? then Fail(MissingParameter(missing.value))
        else Validate(ApplyAll(s, tokens))
  }

  /** The settings after loading a file: every token before the first
      unknown key is applied, whatever is reported afterwards. */
  function LoadedSettings(file: Option<seq<Token>>, s: Settings): Settings
  {
    if file.None? then s else ApplyAll(s, ReadPrefix(file.value))
  }

  // ----- Lemmas -----

  /** Validation accepts exactly the settings that meet every range. */
  lemma ValidateAcceptsIff(s: Settings)
    ensures Validate(s) == Pass <==> ValidSettings(s)
  {
  }

  /** The checks run in order: a failure is reported only when every earlier
      check passed, and the first failing check is the one reported. */
  lemma ValidateReportsFirstFailure(s: Settings)
    ensures Validate(s) == Fail(InvalidNumCpu(s.numCpu)) <==> s.numCpu < 1 || s.numCpu > 128
    ensures Validate(s) == Fail(InvalidScheduler(s.scheduler)) <==>
      1 <= s.numCpu <= 128 && s.scheduler !in {"fcfs", "rr"}
    ensures Validate(s) == Fail(InvalidQuantumCycles(s.quantumCycles)) <==>
      1 <= s.numCpu <= 128 && s.scheduler in {"fcfs", "rr"} && s.quantumCycles < 1
    ensures Validate(s) == Fail(InvalidBatchProcessFreq(s.batchProcessFreq)) <==>
      1 <= s.numCpu <= 128 && s.scheduler in {"fcfs", "rr"} && s.quantumCycles >= 1
      && s.batchProcessFreq < 1
    ensures Validate(s) == Fail(InvalidMinIns(s.minIns)) <==>
      1 <= s.numCpu <= 128 && s.scheduler in {"fcfs", "rr"} && s.quantumCycles >= 1
      && s.batchProcessFreq >= 1 && s.minIns < 1
    ensures Validate(s) == Fail(InvalidMaxIns(s.maxIns)) <==>
      1 <= s.numCpu <= 128 && s.scheduler in {"fcfs", "rr"} && s.quantumCycles >= 1
      && s.batchProcessFreq >= 1 && s.minIns >= 1 && s.maxIns < s.minIns
    ensures Validate(s).Fail? ==>
              Validate(s).error in {InvalidNumCpu(s.numCpu), InvalidScheduler(s.scheduler), InvalidQuantumCycles(s.quantumCycles),
                InvalidBatchProcessFreq(s.batchProcessFreq), InvalidMinIns(s.minIns), InvalidMaxIns(s.maxIns),
                InvalidDelaysPerExec(s.delaysPerExec)}
  {
  }

  /** The delays check can never fire: the field is unsigned. */
  lemma DelaysCheckNeverFails(s: Settings)
    ensures !(Validate(s).Fail? && Validate(s).error.InvalidDelaysPerExec?)
  {
  }

  /** A later token for the same key overrides every earlier one: after
      a + [t] + b, where b does not mention t's key, the field of that key
      holds t's value. */
  lemma {:induction false} LastWins(s: Settings, a: seq<Token>, t: Token, b: seq<Token>)
    requires AllKnown(a + [t] + b)
    requires forall j :: 0 <= j < |b| ==> b[j].key != t.key
    ensures KnownKey(t.key) && Field(ApplyAll(s, a + [t] + b), t.key) == Converted(t)
    decreases |b|
  {
    assert (a + [t] + b)[|a|] == t;
    if b == [] {
      assert (a + [t])[..|a|] == a;
    } else {
      var b' := b[..|b| - 1];
      assert (a + [t] + b)[..|a + [t] + b| - 1] == a + [t] + b';
      assert AllKnown(a + [t] + b') by {
        forall j | 0 <= j < |a + [t] + b'|
          ensures KnownKey((a + [t] + b')[j].key)
        {
          assert (a + [t] + b')[j] == (a + [t] + b)[j];
        }
      }
      LastWins(s, a, t, b');
    }
  }

  /** A key the sequence never mentions keeps its starting value. */
  lemma {:induction false} UnmentionedKeyUnchanged(s: Settings, tokens: seq<Token>, key: string)
    requires AllKnown(tokens) && KnownKey(key) && key !in Seen(tokens)
    ensures Field(ApplyAll(s, tokens), key) == Field(s, key)
  {
    if tokens != [] {
      var p := tokens[..|tokens| - 1];
      assert Seen(p) <= Seen(tokens) by {
        forall k | k in Seen(p) ensures k in Seen(tokens) {
          var j :| 0 <= j < |p| && p[j].key == k;
          assert tokens[j] == p[j];
        }
      }
      assert tokens[|tokens| - 1].key in Seen(tokens);
      UnmentionedKeyUnchanged(s, p, key);
    }
  }

  /** A file that cannot be opened, or holds a key outside the seven, is
      rejected with that key; nothing after the unknown key is read. */
  lemma LoadRejectsUnknown(tokens: seq<Token>, s: Settings)
    requires !AllKnown(tokens)
    ensures var i := FirstUnknown(tokens);
      0 <= i < |tokens| && !KnownKey(tokens[i].key)
      && LoadOutcome(Some(tokens), s) == Fail(UnknownParameter(tokens[i].key))
      && LoadedSettings(Some(tokens), s) == ApplyAll(s, tokens[..i])
    ensures LoadOutcome(None, s) == Fail(CannotOpen) && LoadedSettings(None, s) == s
  {
  }

  /** A fully known file that omits a required key is rejected naming a
      key it omits. */
  lemma LoadRejectsMissing(tokens: seq<Token>, s: Settings, key: string)
    requires AllKnown(tokens) && KnownKey(key) && key !in Seen(tokens)
    ensures var r := LoadOutcome(Some(tokens), s);
      r.Fail? && r.error.MissingParameter? && KnownKey(r.error.param) && r.error.param !in Seen(tokens)
  {
    var j :| 0 <= j < |RequiredParams| && RequiredParams[j] == key;
  }

  /** Loading succeeds exactly when every key is known, every required key
      is present and the resulting settings are valid. */
  lemma LoadAcceptsIff(tokens: seq<Token>, s: Settings)
    ensures LoadOutcome(Some(tokens), s) == Pass <==>
      AllKnown(tokens) && (forall key :: KnownKey(key) ==> key in Seen(tokens))
      && ValidSettings(ApplyAll(s, tokens))
  {
    NoneMissingIff(Seen(tokens));
    if AllKnown(tokens) {
      ValidateAcceptsIff(ApplyAll(s, tokens));
    }
  }

  /** No required key is missing exactly when every known key was seen. */
  lemma NoneMissingIff(seen: set<string>)
    ensures FirstMissing(seen).None? <==> forall key :: KnownKey(key) ==> key in seen
  {
    if FirstMissing(seen).None? {
      forall key | KnownKey(key) ensures key in seen {
        var j :| 0 <= j < |RequiredParams| && RequiredParams[j] == key;
      }
    }
    if forall key :: KnownKey(key) ==> key in seen {
      assert forall j :: 0 <= j < |RequiredParams| ==> KnownKey(RequiredParams[j]);
    }
  }

  /** Once every required key is present, the loaded settings do not depend
      on the values held before loading. */
  lemma {:induction false} LoadForgetsStart(tokens: seq<Token>, s1: Settings, s2: Settings, key: string)
    requires AllKnown(tokens) && KnownKey(key) && key in Seen(tokens)
    ensures Field(ApplyAll(s1, tokens), key) == Field(ApplyAll(s2, tokens), key)
  {
    var n := |tokens|;
    var last := tokens[n - 1];
    var p := tokens[..n - 1];
    assert tokens == p + [last];
    if last.key != key {
      assert key in Seen(p) by {
        var j :| 0 <= j < n && tokens[j].key == key;
        assert j < n - 1 && p[j] == tokens[j];
      }
      LoadForgetsStart(p, s1, s2, key);
    }
  }

  /** The configuration object: the fields of Config.h and the flag that
      says a load and its validation have both succeeded. */
  class Config {
    var numCpu: int
    var schedulerType: string
    var quantumCycles: U32
    var batchProcessFreq: U32
    var minInstructions: U32
    var maxInstructions: U32
    var delaysPerExec: U32
    var initialized: bool

    /** A fresh configuration is not initialised; its parameter fields hold
        no meaningful value until a load assigns them. */
    constructor ()
      ensures !initialized
    {
      initialized := false;
    }

    function Current(): Settings
      reads this
    {
      Settings(numCpu, schedulerType, quantumCycles, batchProcessFreq,
               minInstructions, maxInstructions, delaysPerExec)
    }

    function IsInitialized(): bool
      reads this
    {
      initialized
    }

    /** Reads the tokens in order, storing each known one; stops at the
        first unknown key, then reports the first missing key in map order,
        then runs the range checks. Only full success sets the flag. */
    method LoadConfig(file: Option<seq<Token>>) returns (result: Outcome<ConfigError>)
      modifies this
      ensures result == LoadOutcome(file, old(Current()))
      ensures Current() == LoadedSettings(file, old(Current()))
      ensures initialized == (old(initialized) || result == Pass)
    {
      if file.None? {
        return Fail(CannotOpen);
      }
      var tokens := file.value;
      var seen: set<string> := {};
      var i := 0;
      while i < |tokens|
        invariant 0 <= i <= |tokens| && AllKnown(tokens[..i])
        invariant Current() == ApplyAll(old(Current()), tokens[..i])
        invariant seen == Seen(tokens[..i])
        invariant initialized == old(initialized)
      {
        var t := tokens[i];
        if !KnownKey(t.key) {
          assert FirstUnknown(tokens) == i by {
            FirstUnknownAt(tokens, i);
          }
          return Fail(UnknownParameter(t.key));
        }
        Store(t);
        AppendedPrefix(tokens, i);
        seen := seen + {t.key};
        i := i + 1;
      }
      assert tokens[..i] == tokens;
      var missing := FindMissing(seen);
      if missing.Some? {
        return Fail(MissingParameter(missing.value));
      }
      result := ValidateParameters();
      if result == Pass {
        initialized := true;
      }
    }

    /** Stores one known token in its field. */
    method Store(t: Token)
      requires KnownKey(t.key)
      modifies this
      ensures Current() == Apply(old(Current()), t)
      ensures initialized == old(initialized)
    {
      if t.key == "num-cpu" {
        numCpu := t.number;
      } else if t.key == "scheduler" {
        schedulerType := t.word;
      } else if t.key == "quantum-cycles" {
        quantumCycles := ToU32(t.number);
      } else if t.key == "batch-process-freq" {
        batchProcessFreq := ToU32(t.number);
      } else if t.key == "min-ins" {
        minInstructions := ToU32(t.number);
      } else if t.key == "max-ins" {
        maxInstructions := ToU32(t.number);
      } else {
        delaysPerExec := ToU32(t.number);
      }
    }

    /** Runs the range checks in order on the stored fields. */
    method ValidateParameters() returns (result: Outcome<ConfigError>)
      ensures result == Validate(Current())
      ensures result == Pass <==> ValidSettings(Current())
    {
      ValidateAcceptsIff(Current());
      if numCpu < 1 || numCpu > 128 {
        return Fail(InvalidNumCpu(numCpu));
      }
      if schedulerType != "fcfs" && schedulerType != "rr" {
        return Fail(InvalidScheduler(schedulerType));
      }
      if quantumCycles < 1 {
        return Fail(InvalidQuantumCycles(quantumCycles));
      }
      if batchProcessFreq < 1 {
        return Fail(InvalidBatchProcessFreq(batchProcessFreq));
      }
      if minInstructions < 1 {
        return Fail(InvalidMinIns(minInstructions));
      }
      if maxInstructions < minInstructions {
        return Fail(InvalidMaxIns(maxInstructions));
      }
      if delaysPerExec < 0 {
        return Fail(InvalidDelaysPerExec(delaysPerExec));
      }
      return Pass;
    }
  }

  /** Walks the required keys in map order and returns the first one the
      seen flags miss. */
  method FindMissing(seen: set<string>) returns (missing: Option<string>)
    ensures missing == FirstMissing(seen)
  {
    var i := 0;
    while i < |RequiredParams|
      invariant 0 <= i <= |RequiredParams|
      invariant FirstMissing(seen) == FirstMissingFrom(seen, i)
    {
      if RequiredParams[i] !in seen {
        return Some(RequiredParams[i]);
      }
      i := i + 1;
    }
    return None;
  }

  lemma AppendedPrefix(tokens: seq<Token>, i: int)
    requires 0 <= i < |tokens|
    ensures tokens[..i + 1] == tokens[..i] + [tokens[i]]
    ensures tokens[..i + 1][..i] == tokens[..i]
    ensures Seen(tokens[..i + 1]) == Seen(tokens[..i]) + {tokens[i].key}
  {
    var p, q := tokens[..i], tokens[..i + 1];
    forall k | k in Seen(q) ensures k in Seen(p) + {tokens[i].key} {
      var j :| 0 <= j < |q| && q[j].key == k;
      if j < i { assert p[j] == q[j]; }
    }
    forall k | k in Seen(p) + {tokens[i].key} ensures k in Seen(q) {
      if k == tokens[i].key { assert q[i].key == k; }
      else { var j :| 0 <= j < |p| && p[j].key == k; assert q[j] == p[j]; }
    }
  }

  lemma FirstUnknownAt(tokens: seq<Token>, i: int)
    requires 0 <= i < |tokens| && AllKnown(tokens[..i]) && !KnownKey(tokens[i].key)
    ensures FirstUnknown(tokens) == i
    decreases i
  {
    if i > 0 {
      var q := tokens[1..][..i - 1];
      assert AllKnown(q) by {
        forall j | 0 <= j < |q| ensures KnownKey(q[j].key) {
          assert q[j] == tokens[..i][j + 1];
        }
      }
      assert KnownKey(tokens[..i][0].key);
      FirstUnknownAt(tokens[1..], i - 1);
    }
  }
}
