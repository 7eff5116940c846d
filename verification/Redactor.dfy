/** The streaming secret redactor. However the input is split into writes, what
    reaches the destination is one leftmost-longest replacement pass over it. */
module Redactor {
  import opened Order
  import opened Sequences
  import opened Wrappers

  // ---------------------------------------------------------- the single pass

  /** The length of the longest secret that starts `s`, or 0. */
  function Longest(secrets: seq<Bytes>, s: Bytes): (n: nat)
    ensures n <= |s|
  {
    if secrets == [] then 0
    else
      var last := secrets[|secrets| - 1];
      var rest := Longest(secrets[..|secrets| - 1], s);
      if last <= s && |last| > rest then |last| else rest
  }

  /** It is the maximum: at least every match, and itself the length of one. */
  lemma {:induction false} LongestIsMaximum(secrets: seq<Bytes>, s: Bytes)
    ensures forall x :: x in secrets && x <= s ==> |x| <= Longest(secrets, s)
    ensures Longest(secrets, s) > 0 ==> exists x :: x in secrets && x <= s && |x| == Longest(secrets, s)
  {
    if secrets != [] {
      LongestIsMaximum(secrets[..|secrets| - 1], s);
      assert secrets == secrets[..|secrets| - 1] + [secrets[|secrets| - 1]];
    }
  }

  /** Only the set of secrets matters, not the order they are kept in. */
  lemma OrderIsIrrelevant(secrets: seq<Bytes>, others: seq<Bytes>, s: Bytes)
    requires forall x :: x in secrets <==> x in others
    ensures Longest(secrets, s) == Longest(others, s)
  {
    LongestIsMaximum(secrets, s);
    LongestIsMaximum(others, s);
  }

  /** More input could make `s` the start of a longer secret. */
  predicate Extensible(secrets: seq<Bytes>, s: Bytes) {
    exists x :: x in secrets && |s| < |x| && s <= x
  }

  /** Leftmost-longest replacement. */
  function Redact(secrets: seq<Bytes>, replacement: Bytes, input: Bytes): Bytes
    decreases |input|
  {
    if input == [] then []
    else
      var n := Longest(secrets, input);
      if n > 0 then replacement + Redact(secrets, replacement, input[n..])
      else [input[0]] + Redact(secrets, replacement, input[1..])
  }

  /** When no secret reaches beyond `s`, what starts `s` is decided for good. */
  lemma Decided(secrets: seq<Bytes>, s: Bytes, z: Bytes)
    requires !Extensible(secrets, s)
    ensures Longest(secrets, s + z) == Longest(secrets, s)
  {
    var n, m := Longest(secrets, s), Longest(secrets, s + z);
    LongestIsMaximum(secrets, s);
    LongestIsMaximum(secrets, s + z);
    if n > 0 {
      var x :| x in secrets && x <= s && |x| == n;
      assert x <= s + z;
    }
    if m > 0 {
      var x :| x in secrets && x <= s + z && |x| == m;
      assert |x| > |s| ==> s <= x;
      assert x <= s;
    }
  }

  /** Without secrets nothing is replaced. */
  lemma {:induction false} RedactNothing(replacement: Bytes, input: Bytes)
    ensures Redact([], replacement, input) == input
    decreases |input|
  {
    if input != [] {
      RedactNothing(replacement, input[1..]);
      assert input == [input[0]] + input[1..];
    }
  }

  // ----------------------------------------------------------------- the spans

  /** A half-open stretch of the input. */
  datatype Span = Span(start: nat, end: nat)

  /** Nonempty, disjoint and in order, from `at` up to `limit`. */
  predicate InOrder(spans: seq<Span>, at: nat, limit: nat) {
    if spans == [] then at <= limit
    else at <= spans[0].start < spans[0].end <= limit && InOrder(spans[1..], spans[0].end, limit)
  }

  /** The stretches of `input[at..]` that the pass replaces. */
  function Spans(secrets: seq<Bytes>, input: Bytes, at: nat): (spans: seq<Span>)
    requires at <= |input|
    ensures InOrder(spans, at, |input|)
    decreases |input| - at
  {
    if at == |input| then []
    else
      var n := Longest(secrets, input[at..]);
      if n > 0 then [Span(at, at + n)] + Spans(secrets, input, at + n)
      else Spans(secrets, input, at + 1)
  }

  /** `input[at..]` with each of the given stretches replaced. */
  function Render(input: Bytes, at: nat, spans: seq<Span>, replacement: Bytes): Bytes
    requires InOrder(spans, at, |input|)
    decreases |spans|
  {
    if spans == [] then input[at..]
    else input[at..spans[0].start] + replacement + Render(input, spans[0].end, spans[1..], replacement)
  }

  ghost predicate Rendered(secrets: seq<Bytes>, replacement: Bytes, input: Bytes, at: nat)
    requires at <= |input|
  {
    Redact(secrets, replacement, input[at..]) == Render(input, at, Spans(secrets, input, at), replacement)
  }

  /** The pass replaces exactly its spans and keeps every byte outside them. */
  lemma {:induction false} RedactRenders(secrets: seq<Bytes>, replacement: Bytes, input: Bytes, at: nat)
    requires at <= |input|
    ensures Rendered(secrets, replacement, input, at)
    decreases |input| - at
  {
    if at < |input| {
      var n := Longest(secrets, input[at..]);
      RedactRenders(secrets, replacement, input, at + if n > 0 then n else 1);
      if n > 0 {
        RendersSpan(secrets, replacement, input, at, n);
      } else {
        RendersByte(secrets, replacement, input, at);
      }
    } else {
      assert input[at..] == [];
    }
  }

  lemma RendersByte(secrets: seq<Bytes>, replacement: Bytes, input: Bytes, at: nat)
    requires at < |input| && Longest(secrets, input[at..]) == 0 && Rendered(secrets, replacement, input, at + 1)
    ensures Rendered(secrets, replacement, input, at)
  {
  }

  lemma RendersFirst(input: Bytes, at: nat, span: Span, later: seq<Span>, replacement: Bytes)
    requires at == span.start < span.end <= |input| && InOrder(later, span.end, |input|)
    ensures InOrder([span] + later, at, |input|)
    ensures Render(input, at, [span] + later, replacement) == replacement + Render(input, span.end, later, replacement)
  {
    assert ([span] + later)[1..] == later;
    assert input[at..at] + replacement == replacement;
  }

  lemma RendersSpan(secrets: seq<Bytes>, replacement: Bytes, input: Bytes, at: nat, n: nat)
    requires at < |input| && n == Longest(secrets, input[at..]) > 0 && Rendered(secrets, replacement, input, at + n)
    ensures Rendered(secrets, replacement, input, at)
  {
    var rest := Redact(secrets, replacement, input[at + n..]);
    assert Redact(secrets, replacement, input[at..]) == replacement + rest by {
      assert input[at..][n..] == input[at + n..];
    }
    RendersFirst(input, at, Span(at, at + n), Spans(secrets, input, at + n), replacement);
  }

  predicate Overlaps(span: Span, start: nat, end: nat) { span.start < end && start < span.end }

  predicate Cut(spans: seq<Span>, start: nat, end: nat) {
    exists i :: 0 <= i < |spans| && Overlaps(spans[i], start, end)
  }

  lemma CutLater(span: Span, spans: seq<Span>, start: nat, end: nat)
    requires Cut(spans, start, end)
    ensures Cut([span] + spans, start, end)
  {
    var i :| 0 <= i < |spans| && Overlaps(spans[i], start, end);
    assert ([span] + spans)[i + 1] == spans[i];
  }

  /** Every occurrence of a secret in the input overlaps a replaced span. */
  lemma {:induction false} OccurrencesAreCut(secrets: seq<Bytes>, input: Bytes, at: nat, i: nat, secret: Bytes)
    requires secret in secrets && secret != [] && at <= i <= |input| && secret <= input[i..]
    ensures Cut(Spans(secrets, input, at), i, i + |secret|)
    decreases |input| - at
  {
    var n := Longest(secrets, input[at..]);
    if i == at { LongestIsMaximum(secrets, input[at..]); }
    if n > 0 && i < at + n {
      assert Overlaps(Spans(secrets, input, at)[0], i, i + |secret|);
    } else if n > 0 {
      OccurrencesAreCut(secrets, input, at + n, i, secret);
      CutLater(Span(at, at + n), Spans(secrets, input, at + n), i, i + |secret|);
    } else {
      OccurrencesAreCut(secrets, input, at + 1, i, secret);
    }
  }

  // ------------------------------------------------- following a split input

  /** The secrets and what replaces them. */
  datatype Rule = Rule(secrets: seq<Bytes>, replacement: Bytes) {
    function Pass(input: Bytes): Bytes { Redact(secrets, replacement, input) }
  }

  ghost predicate InStepOn(r: Rule, consumed: Bytes, sent: Bytes, pending: Bytes, z: Bytes) {
    r.Pass(consumed + z) == sent + r.Pass(pending + z)
  }

  /** Having sent `sent` and holding `pending`, the stream is in step with the
      pass over `consumed`, whatever comes next; nothing does once it is `final`. */
  ghost predicate InStep(r: Rule, consumed: Bytes, sent: Bytes, pending: Bytes, final: bool) {
    forall z: Bytes :: (final ==> z == []) ==> InStepOn(r, consumed, sent, pending, z)
  }

  ghost predicate OnTrackFor(r: Rule, consumed: Bytes, sent: Bytes, z: Bytes) { sent <= r.Pass(consumed + z) }

  /** What was sent is right so far, whatever comes next. */
  ghost predicate OnTrack(r: Rule, consumed: Bytes, sent: Bytes, final: bool) {
    forall z: Bytes :: (final ==> z == []) ==> OnTrackFor(r, consumed, sent, z)
  }

  /** `data` is what the pass makes of the first `n` bytes of `pending`. */
  ghost predicate Yields(r: Rule, pending: Bytes, n: nat, data: Bytes, final: bool) {
    n <= |pending| && InStep(r, pending, data, pending[n..], final)
  }

  lemma YieldsMatch(r: Rule, pending: Bytes, final: bool)
    requires (final || !Extensible(r.secrets, pending)) && pending != []
    ensures var n := Longest(r.secrets, pending);
            if n > 0 then Yields(r, pending, n, r.replacement, final) else Yields(r, pending, 1, pending[..1], final)
  {
    var n := Longest(r.secrets, pending);
    var m, data := if n > 0 then n else 1, if n > 0 then r.replacement else pending[..1];
    forall z: Bytes | final ==> z == [] ensures InStepOn(r, pending, data, pending[m..], z) {
      if final { assert pending + z == pending; } else { Decided(r.secrets, pending, z); }
      assert (pending + z)[m..] == pending[m..] + z;
    }
  }

  lemma StepOn(r: Rule, consumed: Bytes, sent: Bytes, pending: Bytes, n: nat, data: Bytes, final: bool)
    requires InStep(r, consumed, sent, pending, final) && Yields(r, pending, n, data, final)
    ensures InStep(r, consumed, sent + data, pending[n..], final)
  {
    forall z: Bytes | final ==> z == [] ensures InStepOn(r, consumed, sent + data, pending[n..], z) {
      assert InStepOn(r, consumed, sent, pending, z) && InStepOn(r, pending, data, pending[n..], z);
      assert sent + (data + r.Pass(pending[n..] + z)) == sent + data + r.Pass(pending[n..] + z);
    }
  }

  lemma PartOfStep(r: Rule, consumed: Bytes, sent: Bytes, pending: Bytes, w: nat, final: bool)
    requires InStep(r, consumed, sent, pending, final) && w <= |sent|
    ensures OnTrack(r, consumed, sent[..w], final)
  {
    forall z: Bytes | final ==> z == [] ensures OnTrackFor(r, consumed, sent[..w], z) {
      assert InStepOn(r, consumed, sent, pending, z);
    }
  }

  lemma MoreInput(r: Rule, consumed: Bytes, sent: Bytes, pending: Bytes, more: Bytes)
    requires InStep(r, consumed, sent, pending, false)
    ensures InStep(r, consumed + more, sent, pending + more, false)
  {
    forall z: Bytes ensures InStepOn(r, consumed + more, sent, pending + more, z) {
      assert InStepOn(r, consumed, sent, pending, more + z);
      Regroup(consumed, more, z);
      Regroup(pending, more, z);
    }
  }

  lemma Regroup(a: Bytes, b: Bytes, c: Bytes)
    ensures a + b + c == a + (b + c)
  {
  }

  /** In step with nothing pending, everything has been sent. */
  lemma AllSent(r: Rule, consumed: Bytes, sent: Bytes, final: bool)
    requires InStep(r, consumed, sent, [], final)
    ensures sent == r.Pass(consumed)
  {
    assert InStepOn(r, consumed, sent, [], []);
    assert consumed + [] == consumed;
    assert r.Pass([]) == [];
  }

  // ---------------------------------------------------------- the replacement

  predicate Contains(s: Bytes, part: Bytes) {
    exists i :: 0 <= i <= |s| && part <= s[i..]
  }

  predicate Harmless(s: Bytes, secrets: seq<Bytes>) {
    forall x :: x in secrets ==> !Contains(s, x)
  }

  ghost predicate FirstHarmless(candidates: seq<Bytes>, secrets: seq<Bytes>, n: nat) {
    && n < |candidates| && Harmless(candidates[n], secrets)
    && forall m :: 0 <= m < n ==> !Harmless(candidates[m], secrets)
  }

  /** The first candidate that contains no secret; failing that, nothing. */
  method SafeReplacement(candidates: seq<Bytes>, secrets: seq<Bytes>) returns (r: Bytes)
    requires forall x :: x in secrets ==> x != []
    ensures Harmless(r, secrets)
    ensures (exists n: nat :: FirstHarmless(candidates, secrets, n) && r == candidates[n])
         || (r == [] && forall c :: c in candidates ==> !Harmless(c, secrets))
  {
    for n := 0 to |candidates|
      invariant forall m :: 0 <= m < n ==> !Harmless(candidates[m], secrets)
    {
      if Harmless(candidates[n], secrets) {
        assert FirstHarmless(candidates, secrets, n);
        return candidates[n];
      }
    }
    r := [];
  }

  // --------------------------------------------------------------- the writer

  /** Where redacted output goes. An unreliable one may fail after any prefix. */
  class Destination {
    const reliable: bool
    var received: Bytes
    ghost var broken: bool   // it has failed a write

    constructor (reliable: bool)
      ensures this.reliable == reliable && received == [] && !broken
    {
      this.reliable, received, broken := reliable, [], false;
    }

    method Write(data: Bytes) returns (written: nat, failed: bool)
      modifies this
      ensures written <= |data| && received == old(received) + data[..written]
      ensures written < |data| ==> failed
      ensures reliable ==> !failed
      ensures broken == (old(broken) || failed)
    {
      if reliable {
        written, failed := |data|, false;
      } else {
        written :| written <= |data|;
        failed := *;
        if written < |data| { failed := true; }
      }
      received, broken := received + data[..written], broken || failed;
    }
  }

  class Writer {
    const destination: Destination
    const rule: Rule
    var pending: Bytes
    var closed: bool
    var failed: bool
    /** All input accepted so far. */
    ghost var consumed: Bytes

    /** What was received, and what is pending, account for the input. */
    ghost predicate Valid()
      reads this, destination
    {
      && failed == destination.broken
      && (if failed then OnTrack(rule, consumed, destination.received, closed)
          else InStep(rule, consumed, destination.received, pending, closed))
    }

    constructor (destination: Destination, rule: Rule)
      requires destination.received == [] && !destination.broken
      ensures Valid() && consumed == [] && !closed && !failed && pending == []
      ensures this.destination == destination && this.rule == rule
    {
      this.destination, this.rule := destination, rule;
      pending, closed, failed, consumed := [], false, false, [];
      new;
      forall z: Bytes ensures InStepOn(rule, [], [], [], z) { assert [] + z == z; }
    }

    method MatchPrefix() returns (exactLength: nat, possibleLonger: bool)
      ensures exactLength == Longest(rule.secrets, pending)
      ensures possibleLonger <==> Extensible(rule.secrets, pending)
    {
      var secrets := rule.secrets;
      exactLength, possibleLonger := 0, false;
      for i := 0 to |secrets|
        invariant exactLength == Longest(secrets[..i], pending)
        invariant possibleLonger <==> Extensible(secrets[..i], pending)
      {
        var secret := secrets[i];
        assert secrets[..i + 1] == secrets[..i] + [secret];
        if |pending| >= |secret| && pending[..|secret|] == secret {
          if |secret| > exactLength { exactLength := |secret|; }
        } else if |pending| < |secret| && pending == secret[..|pending|] {
          assert pending <= secret && secret in secrets[..i + 1];
          possibleLonger := true;
        }
      }
      assert secrets[..|secrets|] == secrets;
    }

    /** Sends on `data`, which stands for the first `n` pending bytes. */
    method Emit(data: Bytes, n: nat)
      requires Valid() && !failed && Yields(rule, pending, n, data, closed)
      modifies this, destination
      ensures Valid() && pending == old(pending)[n..] && closed == old(closed) && consumed == old(consumed)
      ensures destination.reliable ==> !failed
    {
      StepOn(rule, consumed, destination.received, pending, n, data, closed);
      ghost var sent := destination.received + data;
      if data != [] {
        var written, broken := destination.Write(data);
        assert destination.received == sent[..|old(destination.received)| + written];
        if broken || written != |data| {
          failed := true;
        }
        PartOfStep(rule, consumed, sent, pending[n..], |old(destination.received)| + written, closed);
      }
      assert !failed ==> destination.received == sent;
      pending := pending[n..];
    }

    /** The loop over the pending bytes; `final` once the input has ended. */
    method Process(final: bool)
      requires Valid() && !failed && final == closed
      modifies this, destination
      ensures Valid() && closed == old(closed) && consumed == old(consumed)
      ensures !failed && pending != [] ==> !final && Extensible(rule.secrets, pending)
      ensures destination.reliable ==> !failed
    {
      while |pending| > 0 && !failed
        invariant Valid() && closed == old(closed) && consumed == old(consumed)
        invariant destination.reliable ==> !failed
        decreases |pending|
      {
        var exactLength, possibleLonger := MatchPrefix();
        if exactLength > 0 && (final || !possibleLonger) {
          YieldsMatch(rule, pending, final);
          Emit(rule.replacement, exactLength);
        } else if possibleLonger && !final {
          return;
        } else {
          YieldsMatch(rule, pending, final);
          Emit(pending[..1], 1);
        }
      }
    }

    /** Whatever the split of the input, after a write everything received is
        right so far, and fewer bytes are held back than the longest secret has. */
    method Write(contents: Bytes) returns (written: nat, err: bool)
      requires Valid() && (rule.secrets == [] ==> pending == [])
      modifies this, destination
      ensures Valid() && (rule.secrets == [] ==> pending == []) && closed == old(closed)
      ensures old(closed || failed) ==> err && unchanged(this) && unchanged(destination)
      ensures !old(closed || failed) ==> consumed == old(consumed) + contents
      ensures !old(closed || failed) && !failed && pending != [] ==> exists x :: x in rule.secrets && |pending| < |x|
      ensures destination.reliable && !old(closed || failed) ==> !failed && !err && written == |contents|
      ensures !old(closed || failed) ==> err == failed && (!err ==> written == |contents|)
    {
      if closed || failed {
        return 0, true;
      }
      MoreInput(rule, consumed, destination.received, pending, contents);
      consumed := consumed + contents;
      if rule.secrets == [] {
        Untouched(rule, contents);
        assert pending + contents == contents;
        StepOn(rule, consumed, destination.received, contents, |contents|, contents, false);
        ghost var sent := destination.received + contents;
        written, err := destination.Write(contents);
        assert destination.received == sent[..|old(destination.received)| + written];
        PartOfStep(rule, consumed, sent, contents[|contents|..], |old(destination.received)| + written, false);
        if err {
          failed := true;
        } else {
          assert destination.received == sent && contents[|contents|..] == pending;
        }
        return;
      }
      pending := pending + contents;
      Process(false);
      return |contents|, failed;
    }

    /** Once closed without an error, what was received is the single pass over
        all the input; and it never depended on how the input was split. */
    method Close() returns (err: bool)
      requires Valid() && (closed && !failed ==> destination.received == rule.Pass(consumed))
      modifies this, destination
      ensures Valid() && closed && consumed == old(consumed) && err == failed
      ensures !failed ==> destination.received == rule.Pass(consumed)
      ensures failed ==> destination.received <= rule.Pass(consumed)
      ensures destination.reliable && !old(failed) ==> !failed
    {
      if !closed {
        closed := true;
        if !failed {
          Process(true);
          if !failed { AllSent(rule, consumed, destination.received, true); }
        }
      }
      if failed {
        assert OnTrackFor(rule, consumed, destination.received, []);
        assert consumed + [] == consumed;
      }
      return failed;
    }
  }

  /** Without secrets a write passes through. */
  lemma Untouched(r: Rule, contents: Bytes)
    requires r.secrets == []
    ensures Yields(r, contents, |contents|, contents, false)
  {
    forall z: Bytes ensures InStepOn(r, contents, contents, contents[|contents|..], z) {
      RedactNothing(r.replacement, contents + z);
      RedactNothing(r.replacement, z);
      assert contents[|contents|..] + z == z;
    }
  }

  // --------------------------------------------------------- the whole stream

  /** `[REDACTED]`, `***` and `[HIDDEN]`. */
  const CANDIDATES: seq<Bytes> := [
    [91, 82, 69, 68, 65, 67, 84, 69, 68, 93], [42, 42, 42], [91, 72, 73, 68, 68, 69, 78, 93]]

  const BYTES: (Byte, Byte) -> bool := (a, b) => a < b

  /** Longer secrets first, then in byte order. */
  const LONGER: (Bytes, Bytes) -> bool := (a, b) => |a| > |b| || (|a| == |b| && LessBy(BYTES, a, b))

  lemma SecretsAreOrdered()
    ensures Strict(LONGER)
  {
    forall a: Bytes, b: Bytes ensures !LONGER(a, a) && (a == b || LONGER(a, b) || LONGER(b, a)) { LessByIsTotal(BYTES, a, b); }
    forall a: Bytes, b: Bytes, c: Bytes | LONGER(a, b) && LONGER(b, c) ensures LONGER(a, c) {
      if |a| == |c| { LessByIsTransitive(BYTES, a, b, c); }
    }
  }

  /** The first candidate that contains no secret, or nothing when each does. */
  ghost predicate IsFirstHarmless(r: Bytes, secrets: seq<Bytes>) {
    if Harmless(CANDIDATES[0], secrets) then r == CANDIDATES[0]
    else if Harmless(CANDIDATES[1], secrets) then r == CANDIDATES[1]
    else if Harmless(CANDIDATES[2], secrets) then r == CANDIDATES[2]
    else r == []
  }

  lemma SameHarm(secrets: seq<Bytes>, values: seq<Bytes>)
    requires forall x :: x in secrets <==> x in values
    ensures forall c :: Harmless(c, secrets) <==> Harmless(c, values)
  {
  }

  /** `NewWriter`: rejects an empty secret, drops duplicates, and picks a
      replacement that gives no secret away. */
  method NewRule(values: seq<Bytes>) returns (r: Option<Rule>)
    ensures r.None? <==> [] in values
    ensures r.Some? ==> forall x :: x in r.value.secrets <==> x in values
    ensures r.Some? ==> Ascending(LONGER, r.value.secrets)
    ensures r.Some? ==> forall x :: x in values ==> !Contains(r.value.replacement, x)
    ensures r.Some? ==> IsFirstHarmless(r.value.replacement, values)
  {
    var secrets: seq<Bytes> := [];
    for n := 0 to |values|
      invariant [] !in values[..n]
      invariant forall x :: x in secrets <==> x in values[..n]
      invariant Distinct(secrets)
    {
      if values[n] == [] {
        return None;
      }
      if values[n] !in secrets {
        secrets := secrets + [values[n]];
      }
      assert values[..n + 1] == values[..n] + [values[n]];
    }
    assert values[..|values|] == values;
    SecretsAreOrdered();
    SortedAscends(LONGER, secrets);
    secrets := Sorted(LONGER, secrets);
    var replacement := SafeReplacement(CANDIDATES, secrets);
    SameHarm(secrets, values);
    return Some(Rule(secrets, replacement));
  }

  /** Writing the parts one by one and closing yields the single pass over their
      concatenation, for every rule and every split. */
  method RedactParts(rule: Rule, parts: seq<Bytes>) returns (output: Bytes)
    ensures output == rule.Pass(Joined(parts))
  {
    var destination := new Destination(true);
    var writer := new Writer(destination, rule);
    for i := 0 to |parts|
      invariant fresh(writer) && fresh(destination) && writer.destination == destination && writer.rule == rule
      invariant writer.Valid() && !writer.closed && !writer.failed && destination.reliable
      invariant rule.secrets == [] ==> writer.pending == []
      invariant writer.consumed == Joined(parts[..i])
    {
      assert parts[..i + 1][..i] == parts[..i];
      var written, err := writer.Write(parts[i]);
    }
    assert parts[..|parts|] == parts;
    var err := writer.Close();
    output := destination.received;
  }
}
