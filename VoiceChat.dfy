/**
 * The reply handler of the voice chat demo (demoapp/demoapp.py,
 * `ChatApplication.response_on_pause`): the system prompt, the conversion of
 * the chat history into LLM messages, the emotion-tag sanitising of the reply,
 * the sentence split `re.split(r'(?<=[.!?]) +', reply)`, and the outputs the
 * generator yields.
 *
 * The transcription, the language model and the speech synthesis are inputs:
 * `transcript` is the Whisper text, `llm` maps the messages to the reply, and
 * `speech` maps a sentence to the clip read back from Orpheus's output file
 * (None when the request failed and `synthesize` returned None).
 */
module VoiceChat {
  import opened Wrappers
  import opened Strings

  // ---------------------------------------------------------------------------
  // The system prompt (demoapp/demoapp.py:106-121)
  // ---------------------------------------------------------------------------

  /** The keys of `emotion_tags`, in dictionary order (the values are never used). */
  const EmotionTags: seq<string> := ["<laugh>", "<sigh>", "<chuckle>", "<cough>", "<sniffle>", "<groan>", "<yawn>", "<gasp>"]

  const PromptHead: string :=
    "You are a helpful assistant. You give short, concise answers. You do not use any emojis."
    + " You can use the following tags to indicate emotions: "

  /** The fixed text, the tags joined by ", ", and a final ".". */
  function PromptListing(tags: seq<string>): string {
    PromptHead + Join(tags, ", ") + "."
  }

  function SystemPrompt(): string {
    PromptListing(EmotionTags)
  }

  /**
   * The prompt is the fixed text, then every tag in order at its place in the
   * ", "-separated list, then a final ".".
   */
  lemma PromptListsTags(tags: seq<string>, i: nat)
    requires i < |tags|
    ensures var p, o := PromptListing(tags), |PromptHead| + JoinOffset(tags, ", ", i);
      && p[..|PromptHead|] == PromptHead
      && p[|p| - 1] == '.'
      && o + |tags[i]| < |p|
      && p[o..o + |tags[i]|] == tags[i]
  {
    var j := Join(tags, ", ");
    JoinContainsPiece(tags, ", ", i);
    var o := JoinOffset(tags, ", ", i);
    var p := PromptListing(tags);
    assert p == PromptHead + (j + ".");
    assert p[|PromptHead| + o..|PromptHead| + o + |tags[i]|] == j[o..o + |tags[i]|];
  }

  // ---------------------------------------------------------------------------
  // Chat history to LLM messages (demoapp/demoapp.py:102,124-129,137)
  // ---------------------------------------------------------------------------

  /** A chat entry: a plain dict or a `gr.ChatMessage`; both expose a role and a content. */
  datatype ChatEntry = DictEntry(role: string, content: string) | ObjectEntry(role: string, content: string)

  datatype LlmMessage = LlmMessage(role: string, content: string)

  /** The system message first, then one message per chat entry with its role and content. */
  predicate ConvertsChat(ms: seq<LlmMessage>, system: string, chat: seq<ChatEntry>) {
    && |ms| == |chat| + 1
    && ms[0] == LlmMessage("system", system)
    && forall k :: 0 <= k < |chat| ==> ms[k + 1] == LlmMessage(chat[k].role, chat[k].content)
  }

  method ToLlmMessages(system: string, chat: seq<ChatEntry>) returns (ms: seq<LlmMessage>)
    ensures ConvertsChat(ms, system, chat)
  {
    ms := [LlmMessage("system", system)];
    for i := 0 to |chat|
      invariant |ms| == i + 1 && ms[0] == LlmMessage("system", system)
      invariant forall k :: 0 <= k < i ==> ms[k + 1] == LlmMessage(chat[k].role, chat[k].content)
    {
      match chat[i]
      case DictEntry(role, content) =>
        ms := ms + [LlmMessage(role, content)];
      case ObjectEntry(role, content) =>
        ms := ms + [LlmMessage(role, content)];
    }
  }

  /** The conversion does not tell the two entry kinds apart. */
  lemma ConvertsChatIgnoresKind(ms: seq<LlmMessage>, system: string, chat: seq<ChatEntry>, other: seq<ChatEntry>)
    requires |chat| == |other|
    requires forall k :: 0 <= k < |chat| ==> chat[k].role == other[k].role && chat[k].content == other[k].content
    ensures ConvertsChat(ms, system, chat) <==> ConvertsChat(ms, system, other)
  {
  }

  // ---------------------------------------------------------------------------
  // Sanitising (demoapp/demoapp.py:133-136)
  // ---------------------------------------------------------------------------

  /** Each tag's `replace(tag, "")` applied in turn, in the given order. */
  function RemoveTags(s: string, tags: seq<string>): string
    requires forall k :: 0 <= k < |tags| ==> tags[k] != ""
  {
    if tags == [] then s
    else Replace(RemoveTags(s, tags[..|tags| - 1]), tags[|tags| - 1], "")
  }

  function Sanitize(reply: string): string {
    Strip(RemoveTags(reply, EmotionTags))
  }

  /** The loop over `emotion_tags.items()` followed by `strip()`. */
  method SanitizeReply(reply: string) returns (sanitized: string)
    ensures sanitized == Sanitize(reply)
    ensures sanitized == [] || (!IsSpace(sanitized[0]) && !IsSpace(sanitized[|sanitized| - 1]))
  {
    sanitized := reply;
    for i := 0 to |EmotionTags|
      invariant sanitized == RemoveTags(reply, EmotionTags[..i])
    {
      assert EmotionTags[..i + 1][..i] == EmotionTags[..i];
      sanitized := Replace(sanitized, EmotionTags[i], "");
    }
    assert EmotionTags[..|EmotionTags|] == EmotionTags;
    sanitized := Strip(sanitized);
  }

  /** Removing tags never lengthens the text. */
  lemma {:induction false} RemoveTagsShorter(s: string, tags: seq<string>)
    requires forall k :: 0 <= k < |tags| ==> tags[k] != ""
    ensures |RemoveTags(s, tags)| <= |s|
  {
    if tags != [] {
      RemoveTagsShorter(s, tags[..|tags| - 1]);
      ReplaceDeleteShorter(RemoveTags(s, tags[..|tags| - 1]), tags[|tags| - 1]);
    }
  }

  /**
   * The pass for `tags[i]` deletes every occurrence its left-to-right scan
   * meets: the text before the pass is its pieces joined by the tag, no
   * occurrence of the tag starts inside a piece, and the pass leaves the
   * pieces run together. It changes the text exactly when the tag occurs.
   */
  lemma TagPassDeletesEveryMatch(s: string, tags: seq<string>, i: nat)
    requires forall k :: 0 <= k < |tags| ==> tags[k] != ""
    requires i < |tags|
    ensures var before := RemoveTags(s, tags[..i]);
            var pieces := SplitOn(before, tags[i]);
            && Join(pieces, tags[i]) == before
            && RemoveTags(s, tags[..i + 1]) == Concat(pieces)
            && (forall k: nat, q: nat :: k < |pieces| && JoinOffset(pieces, tags[i], k) <= q < JoinOffset(pieces, tags[i], k) + |pieces[k]|
                  ==> !OccursAt(before, tags[i], q))
            && (RemoveTags(s, tags[..i + 1]) == before <==> forall q: nat :: !OccursAt(before, tags[i], q))
  {
    var before := RemoveTags(s, tags[..i]);
    assert tags[..i + 1][..i] == tags[..i];
    SplitJoinRoundTrip(before, tags[i]);
    ReplaceIsJoinOfSplit(before, tags[i], "");
    ReplaceDeleteUnchanged(before, tags[i]);
    forall k: nat, q: nat | k < |SplitOn(before, tags[i])|
        && JoinOffset(SplitOn(before, tags[i]), tags[i], k) <= q < JoinOffset(SplitOn(before, tags[i]), tags[i], k) + |SplitOn(before, tags[i])[k]|
      ensures !OccursAt(before, tags[i], q)
    {
      SplitPieceHasNoMatch(before, tags[i], k, q);
    }
  }

  /** A reply without "<" only loses its surrounding whitespace. */
  lemma {:induction false} RemoveTagsWithoutBracket(s: string, tags: seq<string>)
    requires forall k :: 0 <= k < |tags| ==> tags[k] != "" && tags[k][0] == '<'
    requires forall i :: 0 <= i < |s| ==> s[i] != '<'
    ensures RemoveTags(s, tags) == s
  {
    if tags != [] {
      RemoveTagsWithoutBracket(s, tags[..|tags| - 1]);
      ReplaceFirstCharAbsent(s, tags[|tags| - 1], "");
    }
  }

  lemma SanitizeWithoutTags(reply: string)
    requires forall i :: 0 <= i < |reply| ==> reply[i] != '<'
    ensures Sanitize(reply) == Strip(reply)
    ensures |Sanitize(reply)| <= |reply|
  {
    RemoveTagsWithoutBracket(reply, EmotionTags);
  }

  /**
   * Each `replace` is a single left-to-right pass, so deleting an inner tag can
   * assemble a new one: "<sig<sigh>h>" is shown as "<sigh>".
   */
  lemma NestedTagSurvives(reply: string, tag: string)
    requires reply == "<sig<sigh>h>" && tag == "<sigh>"
    ensures Replace(reply, tag, "") == tag
  {
    assert reply == tag[..4] + tag + tag[4..];
    forall i | 0 <= i < 4
      ensures reply[i..][..|tag|] != tag
    {
      if i == 0 { assert reply[i..][..|tag|][4] != tag[4]; }
      else { assert reply[i..][..|tag|][0] != tag[0]; }
    }
    InnerTagRemoved(reply, tag, 4, 0);
  }

  /**
   * Deleting `tag` from `tag[..j] + tag + tag[j..]`, when no occurrence starts
   * before the inner one, leaves exactly `tag`.
   */
  lemma {:induction false} InnerTagRemoved(s: string, tag: string, j: nat, i: nat)
    requires 0 < j < |tag| && i <= j && s == tag[..j] + tag + tag[j..]
    requires forall p :: i <= p < j ==> s[p..][..|tag|] != tag
    ensures Replace(s[i..], tag, "") == tag[i..]
    decreases j - i
  {
    var rest := s[i..];
    if i == j {
      assert rest[..|tag|] == tag;
      assert rest[|tag|..] == tag[j..];
    } else {
      InnerTagRemoved(s, tag, j, i + 1);
      assert rest[..|tag|] != tag;
      assert rest[1..] == s[i + 1..];
      assert rest[0] == tag[i];
      assert tag[i..] == [tag[i]] + tag[i + 1..];
    }
  }

  // ---------------------------------------------------------------------------
  // re.split(r'(?<=[.!?]) +', reply)  (demoapp/demoapp.py:141)
  // ---------------------------------------------------------------------------

  predicate IsTerminator(c: char) {
    c == '.' || c == '!' || c == '?'
  }

  /** A position where the pattern can match: a space right after a terminator. */
  predicate BreakAt(s: string, p: int) {
    1 <= p < |s| && IsTerminator(s[p - 1]) && s[p] == ' '
  }

  function FirstBreakFrom(s: string, i: nat): (r: Option<nat>)
    ensures r.Some? ==> i <= r.value && BreakAt(s, r.value) && forall q :: i <= q < r.value ==> !BreakAt(s, q)
    ensures r.None? ==> forall q :: i <= q < |s| ==> !BreakAt(s, q)
    decreases |s| - i
  {
    if i >= |s| then None
    else if BreakAt(s, i) then Some(i)
    else FirstBreakFrom(s, i + 1)
  }

  /** The leftmost match position; the lookbehind rules out position 0. */
  function FirstBreak(s: string): (r: Option<nat>)
    ensures r.Some? ==> BreakAt(s, r.value) && forall q :: 0 <= q < r.value ==> !BreakAt(s, q)
    ensures r.None? ==> forall q :: 0 <= q < |s| ==> !BreakAt(s, q)
  {
    FirstBreakFrom(s, 1)
  }

  /** The greedy ` +`: the whole run of spaces starting at `p`. */
  function SpaceRun(s: string, p: nat): (n: nat)
    requires p <= |s|
    ensures p + n <= |s|
    ensures forall q :: p <= q < p + n ==> s[q] == ' '
    ensures p + n < |s| ==> s[p + n] != ' '
    ensures p < |s| && s[p] == ' ' ==> n >= 1
    decreases |s| - p
  {
    if p == |s| || s[p] != ' ' then 0 else 1 + SpaceRun(s, p + 1)
  }

  /** The pieces `re.split` returns. */
  function Sentences(s: string): (r: seq<string>)
    ensures |r| >= 1
    decreases |s|
  {
    match FirstBreak(s)
    case None => [s]
    case Some(p) => [s[..p]] + Sentences(s[p + SpaceRun(s, p)..])
  }

  /** The runs of spaces the matches consume, in order. */
  function Separators(s: string): seq<string>
    decreases |s|
  {
    match FirstBreak(s)
    case None => []
    case Some(p) => [s[p..p + SpaceRun(s, p)]] + Separators(s[p + SpaceRun(s, p)..])
  }

  /** Sentences and separators, alternately. */
  function Interleave(ss: seq<string>, seps: seq<string>): string
    requires |ss| == |seps| + 1
  {
    if seps == [] then ss[0] else ss[0] + seps[0] + Interleave(ss[1..], seps[1..])
  }

  /** One match: the first sentence, its separator, and the split of the rest. */
  lemma SplitStep(s: string)
    requires FirstBreak(s).Some?
    ensures var p := FirstBreak(s).value; var n := SpaceRun(s, p);
      && Sentences(s) == [s[..p]] + Sentences(s[p + n..])
      && Separators(s) == [s[p..p + n]] + Separators(s[p + n..])
      && s == s[..p] + s[p..p + n] + s[p + n..]
  {
    var p := FirstBreak(s).value;
    var n := SpaceRun(s, p);
    assert s == s[..p] + s[p..p + n] + s[p + n..];
  }

  /** Putting the consumed separators back between the sentences restores the reply. */
  lemma {:induction false} SentencesRejoin(s: string)
    ensures |Sentences(s)| == |Separators(s)| + 1
    ensures Interleave(Sentences(s), Separators(s)) == s
    decreases |s|
  {
    var b := FirstBreak(s);
    if b.Some? {
      var p := b.value;
      var n := SpaceRun(s, p);
      var rest := s[p + n..];
      SentencesRejoin(rest);
      SplitStep(s);
      var ss, seps := Sentences(s), Separators(s);
      assert ss[1..] == Sentences(rest);
      assert seps[1..] == Separators(rest);
      assert Interleave(ss, seps) == ss[0] + seps[0] + Interleave(Sentences(rest), Separators(rest));
    }
  }

  predicate EndsInTerminator(x: string) {
    x != "" && IsTerminator(x[|x| - 1])
  }

  predicate NoLeadingSpace(x: string) {
    x == "" || x[0] != ' '
  }

  predicate HasNoBreak(x: string) {
    forall q :: 0 <= q < |x| ==> !BreakAt(x, q)
  }

  /** Every sentence but the last is non-empty and ends in '.', '!' or '?'. */
  lemma {:induction false} SentencesEndInTerminators(s: string)
    ensures forall k :: 0 <= k < |Sentences(s)| - 1 ==> EndsInTerminator(Sentences(s)[k])
    decreases |s|
  {
    var b := FirstBreak(s);
    if b.Some? {
      var p := b.value;
      var rest := s[p + SpaceRun(s, p)..];
      SentencesEndInTerminators(rest);
      var ss := Sentences(s);
      assert ss == [s[..p]] + Sentences(rest);
      assert EndsInTerminator(s[..p]);
      forall k | 1 <= k < |ss| - 1 ensures EndsInTerminator(ss[k]) {
        assert ss[k] == Sentences(rest)[k - 1];
      }
    }
  }

  /** The greedy separator leaves no space at the start of any later sentence. */
  lemma {:induction false} LaterSentencesNoLeadingSpace(s: string)
    ensures forall k :: 1 <= k < |Sentences(s)| ==> NoLeadingSpace(Sentences(s)[k])
    decreases |s|
  {
    var b := FirstBreak(s);
    if b.Some? {
      var p := b.value;
      var n := SpaceRun(s, p);
      var rest := s[p + n..];
      LaterSentencesNoLeadingSpace(rest);
      var ss := Sentences(s);
      var rs := Sentences(rest);
      assert ss == [s[..p]] + rs;
      assert NoLeadingSpace(rest);
      assert NoLeadingSpace(rs[0]) by {
        var c := FirstBreak(rest);
        if c.Some? {
          assert rs[0] == rest[..c.value];
        } else {
          assert rs[0] == rest;
        }
      }
      forall k | 1 <= k < |ss| ensures NoLeadingSpace(ss[k]) {
        assert ss[k] == rs[k - 1];
      }
    }
  }

  /** No sentence still contains a terminator followed by a space: the split is complete. */
  lemma {:induction false} SentencesHaveNoBreak(s: string)
    ensures forall k :: 0 <= k < |Sentences(s)| ==> HasNoBreak(Sentences(s)[k])
    decreases |s|
  {
    var b := FirstBreak(s);
    if b.Some? {
      var p := b.value;
      var rest := s[p + SpaceRun(s, p)..];
      SentencesHaveNoBreak(rest);
      var ss := Sentences(s);
      assert ss == [s[..p]] + Sentences(rest);
      assert HasNoBreak(s[..p]) by {
        forall q | 0 <= q < p ensures !BreakAt(s[..p], q) {
          assert !BreakAt(s, q);
          if 1 <= q {
            assert s[..p][q - 1] == s[q - 1] && s[..p][q] == s[q];
          }
        }
      }
      forall k | 1 <= k < |ss| ensures HasNoBreak(ss[k]) {
        assert ss[k] == Sentences(rest)[k - 1];
      }
    }
  }

  predicate IsSpaceRun(sep: string) {
    sep != "" && forall i :: 0 <= i < |sep| ==> sep[i] == ' '
  }

  /** Only runs of plain spaces separate sentences: never tabs or newlines. */
  lemma {:induction false} SeparatorsAreSpaces(s: string)
    ensures forall k :: 0 <= k < |Separators(s)| ==> IsSpaceRun(Separators(s)[k])
    decreases |s|
  {
    var b := FirstBreak(s);
    if b.Some? {
      var p := b.value;
      var n := SpaceRun(s, p);
      var rest := s[p + n..];
      SeparatorsAreSpaces(rest);
      var seps := Separators(s);
      assert seps == [s[p..p + n]] + Separators(rest);
      assert IsSpaceRun(s[p..p + n]);
      forall k | 1 <= k < |seps| ensures IsSpaceRun(seps[k]) {
        assert seps[k] == Separators(rest)[k - 1];
      }
    }
  }

  /** Where the last sentence starts. */
  function LastStart(s: string): (j: nat)
    ensures j <= |s|
    decreases |s|
  {
    match FirstBreak(s)
    case None => 0
    case Some(p) => p + SpaceRun(s, p) + LastStart(s[p + SpaceRun(s, p)..])
  }

  /** The last sentence is the suffix of the reply from `LastStart` on. */
  lemma LastSentenceIsSuffix(s: string)
    ensures Sentences(s)[|Sentences(s)| - 1] == s[LastStart(s)..]
  {
    LastOfSentences(s);
    FinalPieceIsSuffix(s);
  }

  /** The piece after the last match. */
  function FinalPiece(s: string): string
    decreases |s|
  {
    match FirstBreak(s)
    case None => s
    case Some(p) => FinalPiece(s[p + SpaceRun(s, p)..])
  }

  /** The last sentence is the piece after the last match. */
  lemma {:induction false} LastOfSentences(s: string)
    ensures Sentences(s)[|Sentences(s)| - 1] == FinalPiece(s)
    decreases |s|
  {
    match FirstBreak(s)
    case None =>
    case Some(p) =>
      var rest := s[p + SpaceRun(s, p)..];
      LastOfSentences(rest);
      assert Sentences(s) == [s[..p]] + Sentences(rest);
  }

  /** The piece after the last match is the reply's suffix from `LastStart`. */
  lemma {:induction false} FinalPieceIsSuffix(s: string)
    ensures FinalPiece(s) == s[LastStart(s)..]
    decreases |s|
  {
    match FirstBreak(s)
    case None =>
      assert FinalPiece(s) == s && LastStart(s) == 0;
      assert s[0..] == s;
    case Some(p) =>
      var n := SpaceRun(s, p);
      var rest := s[p + n..];
      FinalPieceIsSuffix(rest);
      LastStartUnfold(s);
      SliceOfSlice(s, p + n, LastStart(rest));
  }

  /** One match: the last start lies past the match and its spaces. */
  lemma LastStartUnfold(s: string)
    requires FirstBreak(s).Some?
    ensures var p := FirstBreak(s).value;
      LastStart(s) == p + SpaceRun(s, p) + LastStart(s[p + SpaceRun(s, p)..])
  {
  }

  /** Dropping a then b elements is dropping a + b. */
  lemma SliceOfSlice(s: string, a: nat, b: nat)
    requires a + b <= |s|
    ensures s[a..][b..] == s[a + b..]
  {
  }

  /** When the reply splits, its last sentence is preceded by a space. */
  lemma {:induction false} LastStartAfterSpace(s: string)
    ensures |Sentences(s)| > 1 ==> LastStart(s) > 0 && s[LastStart(s) - 1] == ' '
    decreases |s|
  {
    var b := FirstBreak(s);
    if b.Some? {
      var p := b.value;
      var n := SpaceRun(s, p);
      var rest := s[p + n..];
      LastStartAfterSpace(rest);
      var j := LastStart(rest);
      assert LastStart(s) == p + n + j;
      if j == 0 {
        assert n >= 1 && s[p + n - 1] == ' ';
      } else {
        assert |Sentences(rest)| > 1;
        assert rest[j - 1] == s[p + n + j - 1];
      }
    }
  }

  /** A reply that is non-empty and does not end in a space has a non-empty last sentence. */
  lemma LastSentenceNonEmpty(s: string)
    requires s != "" && s[|s| - 1] != ' '
    ensures Sentences(s)[|Sentences(s)| - 1] != ""
  {
    LastSentenceIsSuffix(s);
  }

  /** A run of several spaces is one separator; a terminator not followed by a space does not split. */
  lemma SentencesExample()
    ensures Sentences("Hi!  Go.") == ["Hi!", "Go."]
    ensures Separators("Hi!  Go.") == ["  "]
  {
    var s := "Hi!  Go.";
    assert s[0] == 'H' && s[1] == 'i' && s[2] == '!' && s[3] == ' ' && s[4] == ' ';
    assert !BreakAt(s, 1) && !BreakAt(s, 2) && BreakAt(s, 3);
    assert FirstBreakFrom(s, 3) == Some(3);
    assert FirstBreakFrom(s, 2) == Some(3);
    assert FirstBreakFrom(s, 1) == Some(3);
    assert SpaceRun(s, 5) == 0;
    assert SpaceRun(s, 4) == 1;
    assert SpaceRun(s, 3) == 2;
    var t := s[5..];
    assert t == "Go.";
    assert !BreakAt(t, 1) && !BreakAt(t, 2);
    assert FirstBreakFrom(t, 3) == None;
    assert FirstBreakFrom(t, 2) == None;
    assert FirstBreakFrom(t, 1) == None;
    assert Sentences(t) == [t];
    assert Separators(t) == [];
    assert s[..3] == "Hi!" && s[3..5] == "  ";
    assert Sentences(s) == [s[..3]] + Sentences(t);
    assert Separators(s) == [s[3..5]] + Separators(t);
  }

  /** A reply ending in a terminator and a space leaves an empty last piece; an empty reply is one empty piece. */
  lemma EmptyPieces()
    ensures Sentences("Hi. ") == ["Hi.", ""]
    ensures Sentences("") == [""]
  {
    var s := "Hi. ";
    assert s[0] == 'H' && s[1] == 'i' && s[2] == '.' && s[3] == ' ';
    assert !BreakAt(s, 1) && !BreakAt(s, 2) && BreakAt(s, 3);
    assert FirstBreakFrom(s, 3) == Some(3);
    assert FirstBreakFrom(s, 2) == Some(3);
    assert FirstBreakFrom(s, 1) == Some(3);
    assert SpaceRun(s, 4) == 0;
    assert SpaceRun(s, 3) == 1;
    assert s[..3] == "Hi.";
    assert s[4..] == "";
    assert FirstBreak("") == None;
    assert Sentences("") == [""];
    assert Sentences(s) == [s[..3]] + Sentences(s[4..]);
  }

  // ---------------------------------------------------------------------------
  // Speaking the sentences (demoapp/demoapp.py:144-149)
  // ---------------------------------------------------------------------------

  /** Audio read back from a synthesised file: its sample rate and samples. */
  datatype Clip = Clip(sampleRate: int, samples: seq<real>)

  datatype AudioOut = Silence(sampleRate: int) | Speech(clip: Clip)

  /** One `yield`: the audio and the chat shown with it. */
  datatype Output = Output(audio: AudioOut, chat: seq<ChatEntry>)

  /** `synthesize(sentence, "output.wav")` read back: no audio for an empty sentence. */
  function Synthesized(sentence: string, speech: string -> Option<Clip>): Option<Clip> {
    if sentence == "" then None else speech(sentence)
  }

  /** How many leading sentences produce audio before the first that does not. */
  function SpokenPrefix(ss: seq<string>, speech: string -> Option<Clip>): (n: nat)
    ensures n <= |ss|
    ensures forall k :: 0 <= k < n ==> Synthesized(ss[k], speech).Some?
    ensures n < |ss| ==> Synthesized(ss[n], speech).None?
  {
    if ss == [] then 0
    else if Synthesized(ss[0], speech).None? then 0
    else
      var n := SpokenPrefix(ss[1..], speech);
      assert forall k :: 1 <= k < n + 1 ==> ss[k] == ss[1..][k - 1];
      1 + n
  }

  /**
   * The loop as written: `sf.read(None)` raises when a sentence yields no audio,
   * ending the generator after the clips of the sentences before it.
   */
  method SpeakAsWritten(ss: seq<string>, speech: string -> Option<Clip>, chat: seq<ChatEntry>)
    returns (outputs: seq<Output>, crashed: bool)
    ensures crashed <==> exists k :: 0 <= k < |ss| && Synthesized(ss[k], speech).None?
    ensures crashed <==> SpokenPrefix(ss, speech) < |ss|
    ensures |outputs| == SpokenPrefix(ss, speech)
    ensures forall k :: 0 <= k < |outputs| ==> outputs[k] == Output(Speech(Synthesized(ss[k], speech).value), chat)
  {
    outputs := [];
    crashed := false;
    var i := 0;
    while i < |ss|
      invariant i <= SpokenPrefix(ss, speech) && |outputs| == i
      invariant forall k :: 0 <= k < i ==> outputs[k] == Output(Speech(Synthesized(ss[k], speech).value), chat)
    {
      var clip := Synthesized(ss[i], speech);
      if clip.None? {
        crashed := true;
        return;
      }
      outputs := outputs + [Output(Speech(clip.value), chat)];
      i := i + 1;
    }
  }

  /** A reply ending in ". " (or an empty reply) always ends the as-written handler with an error. */
  lemma TrailingSeparatorCrashes(speech: string -> Option<Clip>)
    ensures Synthesized(Sentences("Hi. ")[1], speech).None?
    ensures Synthesized(Sentences("")[0], speech).None?
  {
    EmptyPieces();
  }

  /** The sentences that produce audio, each with its clip. */
  function Voiced(ss: seq<string>, speech: string -> Option<Clip>, chat: seq<ChatEntry>): seq<Output> {
    if ss == [] then []
    else
      var rest := Voiced(ss[..|ss| - 1], speech, chat);
      match Synthesized(ss[|ss| - 1], speech)
      case None => rest
      case Some(clip) => rest + [Output(Speech(clip), chat)]
  }

  /**
   * The voiced outputs are in sentence order and there is one per sentence that
   * produced audio; when every sentence does, one per sentence.
   */
  lemma {:induction false} VoicedCount(ss: seq<string>, speech: string -> Option<Clip>, chat: seq<ChatEntry>)
    ensures |Voiced(ss, speech, chat)| <= |ss|
    ensures (forall k :: 0 <= k < |ss| ==> Synthesized(ss[k], speech).Some?) ==>
      |Voiced(ss, speech, chat)| == |ss|
      && forall k :: 0 <= k < |ss| ==> Voiced(ss, speech, chat)[k] == Output(Speech(Synthesized(ss[k], speech).value), chat)
  {
    if ss != [] {
      var init := ss[..|ss| - 1];
      VoicedCount(init, speech, chat);
      assert forall k :: 0 <= k < |init| ==> init[k] == ss[k];
    }
  }

  /** The loop with the intended guard: a sentence without audio is skipped. */
  method Speak(ss: seq<string>, speech: string -> Option<Clip>, chat: seq<ChatEntry>) returns (outputs: seq<Output>)
    ensures outputs == Voiced(ss, speech, chat)
  {
    outputs := [];
    for i := 0 to |ss|
      invariant outputs == Voiced(ss[..i], speech, chat)
    {
      assert ss[..i + 1][..i] == ss[..i];
      var clip := Synthesized(ss[i], speech);
      if clip.Some? {
        outputs := outputs + [Output(Speech(clip.value), chat)];
      }
    }
    assert ss[..|ss|] == ss;
  }

  /** When nothing fails, the guarded loop yields exactly what the written loop yields. */
  lemma SpeakAgreesWhenAllVoiced(ss: seq<string>, speech: string -> Option<Clip>, chat: seq<ChatEntry>)
    requires forall k :: 0 <= k < |ss| ==> Synthesized(ss[k], speech).Some?
    ensures SpokenPrefix(ss, speech) == |ss| == |Voiced(ss, speech, chat)|
  {
    VoicedCount(ss, speech, chat);
  }

  // ---------------------------------------------------------------------------
  // response_on_pause (demoapp/demoapp.py:76-149)
  // ---------------------------------------------------------------------------

  /**
   * The conversational half of a call: the transcript joins the chat, the LLM
   * sees the system prompt and the converted chat, and its sanitised reply
   * joins the chat; the raw reply is returned for speaking.
   */
  method Exchange(transcript: string, chat: seq<ChatEntry>, llm: seq<LlmMessage> -> string)
    returns (history: seq<ChatEntry>, messages: seq<LlmMessage>, reply: string)
    ensures ConvertsChat(messages, SystemPrompt(), chat + [ObjectEntry("user", transcript)])
    ensures reply == llm(messages)
    ensures history == chat + [ObjectEntry("user", transcript), ObjectEntry("assistant", Sanitize(reply))]
  {
    var withUser := chat + [ObjectEntry("user", transcript)];
    messages := ToLlmMessages(SystemPrompt(), withUser);
    reply := llm(messages);
    var sanitized := SanitizeReply(reply);
    history := withUser + [ObjectEntry("assistant", sanitized)];
  }

  /**
   * One call as written: the chat gains the user's transcript and then the
   * sanitised reply; a silent frame is yielded after each; then one clip per
   * sentence of the raw reply (tags included), all shown with the final chat,
   * until the first sentence without audio, where `sf.read(None)` raises and
   * `crashed` is set. When every sentence is voiced the call ends normally with
   * two silent frames plus one clip per sentence.
   */
  method ResponseOnPause(sampleRate: int, transcript: string, chat: seq<ChatEntry>,
                         llm: seq<LlmMessage> -> string, speech: string -> Option<Clip>)
    returns (outputs: seq<Output>, history: seq<ChatEntry>, messages: seq<LlmMessage>, crashed: bool)
    ensures ConvertsChat(messages, SystemPrompt(), chat + [ObjectEntry("user", transcript)])
    ensures history == chat + [ObjectEntry("user", transcript), ObjectEntry("assistant", Sanitize(llm(messages)))]
    ensures |outputs| == 2 + SpokenPrefix(Sentences(llm(messages)), speech)
    ensures outputs[0] == Output(Silence(sampleRate), chat + [ObjectEntry("user", transcript)])
    ensures outputs[1] == Output(Silence(sampleRate), history)
    ensures forall k :: 2 <= k < |outputs| ==>
      outputs[k] == Output(Speech(Synthesized(Sentences(llm(messages))[k - 2], speech).value), history)
    ensures crashed <==> SpokenPrefix(Sentences(llm(messages)), speech) < |Sentences(llm(messages))|
    ensures (forall k :: 0 <= k < |Sentences(llm(messages))| ==> Synthesized(Sentences(llm(messages))[k], speech).Some?) ==>
      !crashed && |outputs| == 2 + |Sentences(llm(messages))|
  {
    var reply;
    history, messages, reply := Exchange(transcript, chat, llm);
    outputs := [Output(Silence(sampleRate), chat + [ObjectEntry("user", transcript)]), Output(Silence(sampleRate), history)];
    var sentences := Sentences(reply);
    var spoken;
    spoken, crashed := SpeakAsWritten(sentences, speech, history);
    outputs := outputs + spoken;
    assert forall k :: 2 <= k < |outputs| ==> outputs[k] == spoken[k - 2];
  }

  /**
   * The handler with the intended guard: the same chat and silent frames, then
   * the clips of the sentences that produced audio, and no error.
   */
  method ResponseOnPauseGuarded(sampleRate: int, transcript: string, chat: seq<ChatEntry>,
                                llm: seq<LlmMessage> -> string, speech: string -> Option<Clip>)
    returns (outputs: seq<Output>, history: seq<ChatEntry>, messages: seq<LlmMessage>)
    ensures ConvertsChat(messages, SystemPrompt(), chat + [ObjectEntry("user", transcript)])
    ensures history == chat + [ObjectEntry("user", transcript), ObjectEntry("assistant", Sanitize(llm(messages)))]
    ensures |outputs| >= 2
    ensures outputs[0] == Output(Silence(sampleRate), chat + [ObjectEntry("user", transcript)])
    ensures outputs[1] == Output(Silence(sampleRate), history)
    ensures outputs[2..] == Voiced(Sentences(llm(messages)), speech, history)
  {
    var reply;
    history, messages, reply := Exchange(transcript, chat, llm);
    outputs := [Output(Silence(sampleRate), chat + [ObjectEntry("user", transcript)]), Output(Silence(sampleRate), history)];
    var sentences := Sentences(reply);
    var spoken := Speak(sentences, speech, history);
    outputs := outputs + spoken;
    assert outputs[2..] == spoken;
  }
}
