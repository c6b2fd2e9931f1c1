/**
 * The streaming chat benchmark of qwen-3dot5-vllm/test_chat.py: one pass over
 * the chunks of a streamed chat completion that latches the first reasoning and
 * the first answer timestamps, collects reasoning and answer fragments, keeps
 * the last usage report, and derives latency and throughput figures; and the
 * averaging over several runs in `main`.
 *
 * The clock is injected: `start` and `end` are the readings taken before the
 * request and after the stream, and each chunk carries the reading taken when
 * it was processed.
 */
module ChatBench {
  import opened Wrappers
  import opened Strings

  /**
   * The delta of a chunk's first choice. The source only tests these fields
   * for truthiness, so a missing field and an empty one are both "".
   */
  datatype Delta = Delta(reasoning: string, reasoningContent: string, content: string)

  /** One stream chunk: `delta` is None when the chunk has no choices. */
  datatype Chunk = Chunk(delta: Option<Delta>, usage: Option<nat>, time: real)

  /** The dictionary `benchmark` returns. */
  datatype BenchmarkResult = BenchmarkResult(
    ttft: Option<real>,
    think: Option<real>,
    thinkChars: nat,
    total: real,
    completionTokens: nat,
    tokensPerSec: real)

  /** `extra.get("reasoning") or extra.get("reasoning_content")`, "" when there is no delta. */
  function Fragment(c: Chunk): string {
    match c.delta
    case None => ""
    case Some(d) => if d.reasoning != "" then d.reasoning else d.reasoningContent
  }

  /** `delta.content if delta else None`. */
  function Content(c: Chunk): string {
    match c.delta
    case None => ""
    case Some(d) => d.content
  }

  predicate HasReasoning(c: Chunk) { Fragment(c) != "" }

  predicate HasContent(c: Chunk) { Content(c) != "" }

  /** Python truthiness of an optional float. */
  predicate Truthy(t: Option<real>) { t.Some? && t.value != 0.0 }

  // ---------------------------------------------------------------------------
  // What the loop accumulates, as functions of the chunks consumed so far
  // ---------------------------------------------------------------------------

  /** A one-shot latch: the time of the first chunk satisfying `p`, kept once set. */
  function LatchTime(cs: seq<Chunk>, p: Chunk -> bool): Option<real> {
    if cs == [] then None
    else
      var before := LatchTime(cs[..|cs| - 1], p);
      if before.None? && p(cs[|cs| - 1]) then Some(cs[|cs| - 1].time) else before
  }

  /** The non-empty values of `f` over the chunks, in arrival order. */
  function Collected(cs: seq<Chunk>, f: Chunk -> string): seq<string> {
    if cs == [] then []
    else Collected(cs[..|cs| - 1], f) + (if f(cs[|cs| - 1]) != "" then [f(cs[|cs| - 1])] else [])
  }

  /** The usage slot: each chunk carrying usage overwrites it. */
  function LastUsage(cs: seq<Chunk>): Option<nat> {
    if cs == [] then None
    else if cs[|cs| - 1].usage.Some? then cs[|cs| - 1].usage
    else LastUsage(cs[..|cs| - 1])
  }

  function AnswerText(cs: seq<Chunk>): string {
    Concat(Collected(cs, Content))
  }

  function ReasoningText(cs: seq<Chunk>): string {
    Concat(Collected(cs, Fragment))
  }

  // ---------------------------------------------------------------------------
  // The final derivation (test_chat.py:94-110)
  // ---------------------------------------------------------------------------

  /** `len(answer_text.split())` when no usage arrived. */
  function CompletionTokens(usage: Option<nat>, answer: string): (n: nat)
    ensures usage.Some? ==> n == usage.value
    ensures usage.None? ==> n == |Words(answer)|
  {
    match usage
    case Some(k) => k
    case None => |Words(answer)|
  }

  /** Tokens per second, 0 when no time elapsed. */
  function Rate(tokens: nat, total: real): (r: real)
    ensures r >= 0.0
    ensures total > 0.0 ==> r * total == tokens as real
    ensures total <= 0.0 ==> r == 0.0
  {
    if total > 0.0 then tokens as real / total else 0.0
  }

  function Derive(start: real, end: real, thinkFirst: Option<real>, answerFirst: Option<real>,
                  thinkChars: nat, answer: string, usage: Option<nat>): BenchmarkResult
  {
    var tokens := CompletionTokens(usage, answer);
    BenchmarkResult(
      if Truthy(answerFirst) then Some(answerFirst.value - start) else None,
      if Truthy(thinkFirst) && Truthy(answerFirst) then Some(answerFirst.value - thinkFirst.value) else None,
      thinkChars,
      end - start,
      tokens,
      Rate(tokens, end - start))
  }

  /** The result `benchmark` returns for this stream and these clock readings. */
  function Summary(start: real, cs: seq<Chunk>, end: real): BenchmarkResult {
    Derive(start, end, LatchTime(cs, HasReasoning), LatchTime(cs, HasContent),
           |ReasoningText(cs)|, AnswerText(cs), LastUsage(cs))
  }

  /** `benchmark` (test_chat.py:29-110), with the transport and the clock as inputs. */
  method Benchmark(start: real, stream: seq<Chunk>, end: real) returns (r: BenchmarkResult)
    ensures r == Summary(start, stream, end)
  {
    var thinkFirst: Option<real> := None;
    var answerFirst: Option<real> := None;
    var thinkChunks: seq<string> := [];
    var answerChunks: seq<string> := [];
    var usage: Option<nat> := None;
    var inThinking := false;
    var i := 0;
    while i < |stream|
      invariant 0 <= i <= |stream|
      invariant thinkFirst == LatchTime(stream[..i], HasReasoning)
      invariant answerFirst == LatchTime(stream[..i], HasContent)
      invariant thinkChunks == Collected(stream[..i], Fragment)
      invariant answerChunks == Collected(stream[..i], Content)
      invariant usage == LastUsage(stream[..i])
      invariant inThinking <==> thinkFirst.Some?
    {
      var chunk := stream[i];
      assert stream[..i + 1][..i] == stream[..i];
      var reasoning := Fragment(chunk);
      if reasoning != "" {
        if thinkFirst.None? {
          thinkFirst := Some(chunk.time);
          inThinking := true;
        }
        thinkChunks := thinkChunks + [reasoning];
      }
      var content := Content(chunk);
      if content != "" {
        if answerFirst.None? {
          answerFirst := Some(chunk.time);
        }
        answerChunks := answerChunks + [content];
      }
      if chunk.usage.Some? {
        usage := chunk.usage;
      }
      i := i + 1;
    }
    assert stream[..i] == stream;
    r := Derive(start, end, thinkFirst, answerFirst, |Concat(thinkChunks)|, Concat(answerChunks), usage);
  }

  // ---------------------------------------------------------------------------
  // The latches
  // ---------------------------------------------------------------------------

  /** The index of the first chunk satisfying `p`, as an independent reference. */
  function FirstWhere(cs: seq<Chunk>, p: Chunk -> bool): (r: Option<nat>)
    ensures r.None? <==> forall j :: 0 <= j < |cs| ==> !p(cs[j])
    ensures r.Some? ==> r.value < |cs| && p(cs[r.value]) && forall j :: 0 <= j < r.value ==> !p(cs[j])
  {
    if cs == [] then None
    else if p(cs[0]) then Some(0)
    else match FirstWhere(cs[1..], p)
      case None => None
      case Some(k) => Some(k + 1)
  }

  /** The latch holds the time of the first chunk satisfying `p`, and is empty when there is none. */
  lemma {:induction false} LatchIsFirst(cs: seq<Chunk>, p: Chunk -> bool)
    ensures LatchTime(cs, p) == match FirstWhere(cs, p) case None => None case Some(i) => Some(cs[i].time)
  {
    if cs != [] {
      var init := cs[..|cs| - 1];
      LatchIsFirst(init, p);
      var fi := FirstWhere(init, p);
      if fi.Some? {
        assert init[fi.value] == cs[fi.value];
        forall j | 0 <= j < fi.value ensures !p(cs[j]) { assert init[j] == cs[j]; }
      } else {
        forall j | 0 <= j < |init| ensures !p(cs[j]) { assert init[j] == cs[j]; }
      }
    }
  }

  /** Once set, a latch never changes, whatever chunks follow. */
  lemma {:induction false} LatchStable(cs: seq<Chunk>, more: seq<Chunk>, p: Chunk -> bool)
    requires LatchTime(cs, p).Some?
    ensures LatchTime(cs + more, p) == LatchTime(cs, p)
    decreases |more|
  {
    if more != [] {
      var init := more[..|more| - 1];
      LatchStable(cs, init, p);
      var whole := cs + more;
      assert whole[..|whole| - 1] == cs + init;
      assert LatchTime(whole, p) == LatchTime(cs + init, p);
    } else {
      assert cs + more == cs;
    }
  }

  // ---------------------------------------------------------------------------
  // The buffers and the usage slot
  // ---------------------------------------------------------------------------

  /** Collecting over a concatenation collects each part in order. */
  lemma {:induction false} CollectedAppend(a: seq<Chunk>, b: seq<Chunk>, f: Chunk -> string)
    ensures Collected(a + b, f) == Collected(a, f) + Collected(b, f)
    decreases |b|
  {
    if b == [] {
      assert a + b == a;
    } else {
      var init := b[..|b| - 1];
      CollectedAppend(a, init, f);
      assert (a + b)[..|a + b| - 1] == a + init;
    }
  }

  /** The answer of a split stream is the answers of its parts, in order. */
  lemma AnswerTextAppend(a: seq<Chunk>, b: seq<Chunk>)
    ensures AnswerText(a + b) == AnswerText(a) + AnswerText(b)
  {
    CollectedAppend(a, b, Content);
    ConcatAppend(Collected(a, Content), Collected(b, Content));
  }

  /** A chunk without choices, or whose content is empty, adds nothing to the answer. */
  lemma AnswerTextIgnoresEmpty(cs: seq<Chunk>, c: Chunk)
    requires !HasContent(c)
    ensures AnswerText(cs + [c]) == AnswerText(cs)
  {
    assert (cs + [c])[..|cs|] == cs;
    assert Collected(cs + [c], Content) == Collected(cs, Content) + [];
    assert Collected(cs, Content) + [] == Collected(cs, Content);
  }

  /** The answer text is the in-order concatenation of every chunk's content. */
  lemma {:induction false} AnswerTextIsAllContent(cs: seq<Chunk>)
    ensures AnswerText(cs) == Concat(seq(|cs|, i requires 0 <= i < |cs| => Content(cs[i])))
  {
    if cs != [] {
      var init := cs[..|cs| - 1];
      AnswerTextIsAllContent(init);
      var all := seq(|cs|, i requires 0 <= i < |cs| => Content(cs[i]));
      var allInit := seq(|init|, i requires 0 <= i < |init| => Content(init[i]));
      assert all == allInit + [Content(cs[|cs| - 1])];
      ConcatAppend(allInit, [Content(cs[|cs| - 1])]);
      ConcatAppend(Collected(init, Content), if HasContent(cs[|cs| - 1]) then [Content(cs[|cs| - 1])] else []);
    }
  }

  /** `think_chars` is the summed length of every chunk's reasoning fragment. */
  lemma {:induction false} ThinkCharsIsSum(cs: seq<Chunk>)
    ensures |ReasoningText(cs)| == FragmentLengths(cs)
  {
    if cs != [] {
      var init := cs[..|cs| - 1];
      ThinkCharsIsSum(init);
      var last := cs[|cs| - 1];
      ConcatAppend(Collected(init, Fragment), if HasReasoning(last) then [Fragment(last)] else []);
    }
  }

  function FragmentLengths(cs: seq<Chunk>): nat {
    if cs == [] then 0 else FragmentLengths(cs[..|cs| - 1]) + |Fragment(cs[|cs| - 1])|
  }

  /** The last usage report wins: a later report overrides every earlier one. */
  lemma {:induction false} LastUsageAppend(a: seq<Chunk>, b: seq<Chunk>)
    ensures LastUsage(a + b) == if LastUsage(b).Some? then LastUsage(b) else LastUsage(a)
    decreases |b|
  {
    if b == [] {
      assert a + b == a;
    } else {
      var init := b[..|b| - 1];
      LastUsageAppend(a, init);
      assert (a + b)[..|a + b| - 1] == a + init;
    }
  }

  /** No usage slot is filled exactly when no chunk carried usage. */
  lemma {:induction false} LastUsageNone(cs: seq<Chunk>)
    ensures LastUsage(cs).None? <==> forall i :: 0 <= i < |cs| ==> cs[i].usage.None?
  {
    if cs != [] {
      LastUsageNone(cs[..|cs| - 1]);
      assert forall i :: 0 <= i < |cs| - 1 ==> cs[..|cs| - 1][i] == cs[i];
    }
  }

  // ---------------------------------------------------------------------------
  // Properties of the returned figures
  // ---------------------------------------------------------------------------

  predicate PositiveTimes(cs: seq<Chunk>) {
    forall i :: 0 <= i < |cs| ==> cs[i].time > 0.0
  }

  lemma LatchPositive(cs: seq<Chunk>, p: Chunk -> bool)
    requires PositiveTimes(cs)
    ensures LatchTime(cs, p).Some? ==> LatchTime(cs, p).value > 0.0
  {
    LatchIsFirst(cs, p);
  }

  /**
   * With a clock that never reads 0, `ttft_s` is absent exactly when no answer
   * token arrived, and otherwise is the first answer time minus the start.
   */
  lemma TtftPresence(start: real, cs: seq<Chunk>, end: real)
    requires PositiveTimes(cs)
    ensures var r := Summary(start, cs, end);
      && (r.ttft.None? <==> forall i :: 0 <= i < |cs| ==> Content(cs[i]) == "")
      && (r.ttft.Some? ==> r.ttft.value == LatchTime(cs, HasContent).value - start)
  {
    LatchIsFirst(cs, HasContent);
    LatchPositive(cs, HasContent);
  }

  /** `think_s` is present exactly when both latches are set, and is their difference. */
  lemma ThinkPresence(start: real, cs: seq<Chunk>, end: real)
    requires PositiveTimes(cs)
    ensures var r := Summary(start, cs, end);
      var tf, af := LatchTime(cs, HasReasoning), LatchTime(cs, HasContent);
      && (r.think.Some? <==> tf.Some? && af.Some?)
      && (r.think.Some? ==> r.think.value == af.value - tf.value)
  {
    LatchPositive(cs, HasContent);
    LatchPositive(cs, HasReasoning);
  }

  /** A stream with reasoning but no answer never reports a thinking time. */
  lemma NoAnswerNoThink(start: real, cs: seq<Chunk>, end: real)
    requires forall i :: 0 <= i < |cs| ==> Content(cs[i]) == ""
    ensures Summary(start, cs, end).ttft.None? && Summary(start, cs, end).think.None?
  {
    LatchIsFirst(cs, HasContent);
  }

  /** The clock is monotonic: start, the chunk readings and end never go backwards. */
  predicate Monotonic(start: real, cs: seq<Chunk>, end: real) {
    && (forall i :: 0 <= i < |cs| ==> start <= cs[i].time <= end)
    && (forall i, j :: 0 <= i < j < |cs| ==> cs[i].time <= cs[j].time)
  }

  /**
   * On a monotonic clock the durations are non-negative, and the thinking time
   * is non-negative when the first reasoning chunk comes no later than the
   * first answer chunk.
   */
  lemma DurationsNonNegative(start: real, cs: seq<Chunk>, end: real)
    requires Monotonic(start, cs, end)
    requires FirstWhere(cs, HasReasoning).Some? && FirstWhere(cs, HasContent).Some? ==>
             FirstWhere(cs, HasReasoning).value <= FirstWhere(cs, HasContent).value
    requires start <= end
    ensures var r := Summary(start, cs, end);
      && r.total >= 0.0
      && (r.ttft.Some? ==> 0.0 <= r.ttft.value <= r.total)
      && (r.think.Some? ==> 0.0 <= r.think.value <= r.ttft.value)
  {
    LatchIsFirst(cs, HasContent);
    LatchIsFirst(cs, HasReasoning);
  }

  /** Reasoning that follows the first answer token makes `think_s` negative. */
  lemma LateReasoningNegativeThink()
    ensures var cs := [Chunk(Some(Delta("", "", "A")), None, 2.0), Chunk(Some(Delta("r", "", "")), None, 3.0)];
      Summary(1.0, cs, 4.0).think == Some(-1.0)
  {
    var c0, c1 := Chunk(Some(Delta("", "", "A")), None, 2.0), Chunk(Some(Delta("r", "", "")), None, 3.0);
    var cs := [c0, c1];
    assert cs[..1] == [c0];
    assert [c0][..0] == [];
    assert HasContent(c0) && !HasReasoning(c0) && HasReasoning(c1);
    assert LatchTime([c0], HasContent) == Some(2.0);
    assert LatchTime(cs, HasContent) == Some(2.0);
    assert LatchTime([c0], HasReasoning) == None;
    assert LatchTime(cs, HasReasoning) == Some(3.0);
  }

  // ---------------------------------------------------------------------------
  // Concrete streams
  // ---------------------------------------------------------------------------

  lemma WordFallbackCounts()
    ensures CompletionTokens(None, "alpha beta gamma") == 3
    ensures CompletionTokens(Some(10), "alpha beta gamma") == 10
  {
    ThreeWords();
  }

  lemma ThreeWords()
    ensures Words("alpha beta gamma") == ["alpha", "beta", "gamma"]
  {
    var ws := ["alpha", "beta", "gamma"];
    ThreeWordsAreWords();
    WordsOfJoin(ws);
    ThreeWordsJoined();
  }

  lemma ThreeWordsAreWords()
    ensures var ws := ["alpha", "beta", "gamma"];
      forall k :: 0 <= k < |ws| ==> ws[k] != [] && NoSpace(ws[k])
  {
    assert NoSpace("alpha");
    assert NoSpace("beta");
    assert NoSpace("gamma");
  }

  lemma ThreeWordsJoined()
    ensures Join(["alpha", "beta", "gamma"], " ") == "alpha beta gamma"
  {
    assert ["alpha", "beta", "gamma"][1..] == ["beta", "gamma"];
    assert ["beta", "gamma"][1..] == ["gamma"];
  }

  /** A stream of reasoning only has no TTFT and, with no usage, a rate of 0. */
  lemma ReasoningOnlyStream(start: real, end: real)
    ensures var cs := [Chunk(Some(Delta("Let", "", "")), None, 1.0), Chunk(None, None, 2.0)];
      var r := Summary(start, cs, end);
      r.ttft.None? && r.completionTokens == 0 && r.tokensPerSec == 0.0 && r.thinkChars == 3
  {
    var c0, c1 := Chunk(Some(Delta("Let", "", "")), None, 1.0), Chunk(None, None, 2.0);
    var cs := [c0, c1];
    NoAnswerNoThink(start, cs, end);
    ThinkCharsIsSum(cs);
    assert cs[..1] == [c0];
    assert [c0][..0] == [];
    assert FragmentLengths([c0]) == 3;
    assert FragmentLengths(cs) == 3;
    AnswerTextIsAllContent(cs);
    assert seq(|cs|, i requires 0 <= i < |cs| => Content(cs[i])) == ["", ""];
    assert Concat(["", ""]) == "";
    assert LastUsage([c0]) == None;
    assert LastUsage(cs) == None;
  }

  /** The end-to-end stream: two reasoning deltas, three answer deltas and a usage report. */
  lemma EndToEnd()
    ensures var cs := [
        Chunk(Some(Delta("Let", "", "")), None, 1.0),
        Chunk(Some(Delta(" me think", "", "")), None, 1.05),
        Chunk(Some(Delta("", "", "The")), None, 1.12),
        Chunk(Some(Delta("", "", " answer")), None, 1.15),
        Chunk(Some(Delta("", "", " is 4.")), None, 1.18),
        Chunk(None, Some(5), 1.19)];
      Summary(1.0, cs, 1.2) == BenchmarkResult(Some(0.12), Some(0.12), 12, 0.2, 5, 25.0)
  {
    var c0 := Chunk(Some(Delta("Let", "", "")), None, 1.0);
    var c1 := Chunk(Some(Delta(" me think", "", "")), None, 1.05);
    var c2 := Chunk(Some(Delta("", "", "The")), None, 1.12);
    var c3 := Chunk(Some(Delta("", "", " answer")), None, 1.15);
    var c4 := Chunk(Some(Delta("", "", " is 4.")), None, 1.18);
    var c5 := Chunk(None, Some(5), 1.19);
    var cs := [c0, c1, c2, c3, c4, c5];
    LatchIsFirst(cs, HasReasoning);
    assert FirstWhere(cs, HasReasoning) == Some(0);
    LatchIsFirst(cs, HasContent);
    assert cs[1..] == [c1, c2, c3, c4, c5];
    assert cs[1..][1..] == [c2, c3, c4, c5];
    assert !HasContent(c0) && !HasContent(c1) && HasContent(c2);
    assert FirstWhere([c2, c3, c4, c5], HasContent) == Some(0);
    assert FirstWhere([c1, c2, c3, c4, c5], HasContent) == Some(1);
    assert FirstWhere(cs, HasContent) == Some(2);
    ThinkCharsIsSum(cs);
    assert cs[..5] == [c0, c1, c2, c3, c4];
    assert cs[..5][..4] == [c0, c1, c2, c3];
    assert cs[..4][..3] == [c0, c1, c2];
    assert cs[..3][..2] == [c0, c1];
    assert cs[..2][..1] == [c0];
    assert cs[..1][..0] == [];
    assert FragmentLengths([c0]) == 3;
    assert FragmentLengths([c0, c1]) == 12;
    assert [c0, c1, c2][..2] == [c0, c1];
    assert FragmentLengths([c0, c1, c2]) == 12;
    assert [c0, c1, c2, c3][..3] == [c0, c1, c2];
    assert FragmentLengths([c0, c1, c2, c3]) == 12;
    assert [c0, c1, c2, c3, c4][..4] == [c0, c1, c2, c3];
    assert FragmentLengths([c0, c1, c2, c3, c4]) == 12;
    assert FragmentLengths(cs) == 12;
    assert LastUsage(cs) == Some(5);
  }

  // ---------------------------------------------------------------------------
  // main: the runs and their averages (test_chat.py:130-159)
  // ---------------------------------------------------------------------------

  /** `sum(r["ttft_s"] for r in results if r["ttft_s"])`. */
  function SumPresentTtft(rs: seq<BenchmarkResult>): real {
    if rs == [] then 0.0
    else SumPresentTtft(rs[..|rs| - 1]) + (if Truthy(rs[|rs| - 1].ttft) then rs[|rs| - 1].ttft.value else 0.0)
  }

  function SumTps(rs: seq<BenchmarkResult>): real {
    if rs == [] then 0.0 else SumTps(rs[..|rs| - 1]) + rs[|rs| - 1].tokensPerSec
  }

  /** The averages `main` prints: both sums are divided by the number of successful runs. */
  datatype Averages = Averages(ttft: real, tps: real)

  function Average(rs: seq<BenchmarkResult>): Averages
    requires |rs| > 0
  {
    Averages(SumPresentTtft(rs) / |rs| as real, SumTps(rs) / |rs| as real)
  }

  /** The mean rate lies between the smallest and the largest rate of the runs. */
  lemma AverageTpsBounded(rs: seq<BenchmarkResult>, lo: real, hi: real)
    requires |rs| > 0
    requires forall i :: 0 <= i < |rs| ==> lo <= rs[i].tokensPerSec <= hi
    ensures lo <= Average(rs).tps <= hi
  {
    SumTpsBounds(rs, lo, hi);
  }

  lemma {:induction false} SumTpsBounds(rs: seq<BenchmarkResult>, lo: real, hi: real)
    requires forall i :: 0 <= i < |rs| ==> lo <= rs[i].tokensPerSec <= hi
    ensures |rs| as real * lo <= SumTps(rs) <= |rs| as real * hi
  {
    if rs != [] {
      SumTpsBounds(rs[..|rs| - 1], lo, hi);
    }
  }

  /** When every run has a TTFT the TTFT average is the plain mean of all of them. */
  lemma {:induction false} SumTtftAllPresent(rs: seq<BenchmarkResult>)
    requires forall i :: 0 <= i < |rs| ==> rs[i].ttft.Some?
    ensures SumPresentTtft(rs) == SumAllTtft(rs)
  {
    if rs != [] {
      SumTtftAllPresent(rs[..|rs| - 1]);
    }
  }

  function SumAllTtft(rs: seq<BenchmarkResult>): real
    requires forall i :: 0 <= i < |rs| ==> rs[i].ttft.Some?
  {
    if rs == [] then 0.0 else SumAllTtft(rs[..|rs| - 1]) + rs[|rs| - 1].ttft.value
  }

  /** A run without a TTFT still counts in the divisor: 0.2 s and "absent" average to 0.1 s. */
  lemma MissingTtftDilutesAverage()
    ensures var a := BenchmarkResult(Some(0.2), None, 0, 1.0, 4, 4.0);
      var b := BenchmarkResult(None, None, 0, 1.0, 2, 2.0);
      Average([a, b]) == Averages(0.1, 3.0)
  {
    var a := BenchmarkResult(Some(0.2), None, 0, 1.0, 4, 4.0);
    var b := BenchmarkResult(None, None, 0, 1.0, 2, 2.0);
    assert [a, b][..1] == [a];
    assert [a][..0] == [];
    assert SumPresentTtft([a]) == 0.2;
    assert SumPresentTtft([a, b]) == 0.2;
    assert SumTps([a]) == 4.0;
    assert SumTps([a, b]) == 6.0;
  }

  /** What `main` ends with: exit status 1 with no successful run, averages only for several runs. */
  datatype Report = Report(results: seq<BenchmarkResult>, exitCode: int, averages: Option<Averages>)

  /**
   * The run loop of `main`: each run either returns a result or raises (None);
   * failed runs are skipped and the rest are averaged when more than one run was asked for.
   */
  method RunBenchmarks(runs: seq<Option<BenchmarkResult>>) returns (report: Report)
    ensures report.results == Successes(runs)
    ensures report.exitCode == (if Successes(runs) == [] then 1 else 0)
    ensures report.averages.Some? <==> |runs| > 1 && Successes(runs) != []
    ensures report.averages.Some? ==> report.averages.value == Average(Successes(runs))
  {
    var results: seq<BenchmarkResult> := [];
    for i := 0 to |runs|
      invariant results == Successes(runs[..i])
    {
      assert runs[..i + 1][..i] == runs[..i];
      if runs[i].Some? {
        results := results + [runs[i].value];
      }
    }
    assert runs[..|runs|] == runs;
    if results == [] {
      report := Report(results, 1, None);
    } else if |runs| > 1 {
      report := Report(results, 0, Some(Average(results)));
    } else {
      report := Report(results, 0, None);
    }
  }

  function Successes(runs: seq<Option<BenchmarkResult>>): seq<BenchmarkResult> {
    if runs == [] then []
    else Successes(runs[..|runs| - 1]) + (if runs[|runs| - 1].Some? then [runs[|runs| - 1].value] else [])
  }

  /** The successful runs are kept, in order, and never outnumber the runs. */
  lemma {:induction false} SuccessesInOrder(runs: seq<Option<BenchmarkResult>>)
    ensures |Successes(runs)| <= |runs|
    ensures (forall i :: 0 <= i < |runs| ==> runs[i].Some?) ==>
            Successes(runs) == seq(|runs|, i requires 0 <= i < |runs| && runs[i].Some? => runs[i].value)
  {
    if runs != [] {
      SuccessesInOrder(runs[..|runs| - 1]);
    }
  }
}
