/**
 * The voice-host overlay shown in play mode: which buttons it offers and
 * the narration prompt it sends for the current card.
 */
module LiveHost {
  import opened Types
  import GeminiLive

  const AnswerLead := "Announce the answer to the group with flair. The answer is: \""
  const QuestionLead := "Read this question and the multiple choice options to the group dramatically. Question: \""
  const OptionsLead := "\". Options are: "
  const QuestionTail := ". Ask them to guess which one it is."
  const OptionSeparator := ", "

  /**
   * Option letters are `String.fromCharCode(65 + i)`; up to this many
   * options every letter is a character below the surrogate range.
   */
  const MaxLetteredOptions := 0xD800 - 65

  /** The letter of option `i`: A, B, C, ...; the first 26 options get the capital letters. */
  function Letter(i: nat): (c: char)
    requires i < MaxLetteredOptions
    ensures c as int == 65 + i
    ensures 'A' <= c && (i < 26 ==> c <= 'Z')
  {
    (65 + i) as char
  }

  /** Different options get different letters, and a full card's four options are A, B, C and D. */
  lemma LettersDistinct(i: nat, j: nat)
    requires i < MaxLetteredOptions && j < MaxLetteredOptions
    ensures Letter(i) == Letter(j) ==> i == j
    ensures [Letter(0), Letter(1), Letter(2), Letter(3)] == "ABCD"
  {
  }

  /** `Option <letter>: <opt>`. */
  function OptionLabel(i: nat, opt: string): string
    requires i < MaxLetteredOptions
  {
    "Option " + [Letter(i)] + ": " + opt
  }

  /**
   * `options.map((opt, i) => OptionLabel(i, opt))`. The labels are pairwise
   * different, even for options that are equal, because each carries its
   * own letter.
   */
  function Labels(options: seq<string>): (labels: seq<string>)
    requires |options| <= MaxLetteredOptions
    ensures |labels| == |options|
    ensures forall i :: 0 <= i < |options| ==> labels[i] == OptionLabel(i, options[i])
    ensures forall i, j :: 0 <= i < j < |labels| ==> labels[i] != labels[j]
  {
    var labels := seq(|options|, i requires 0 <= i < |options| => OptionLabel(i, options[i]));
    LabelsDistinct(options, labels);
    labels
  }

  /** Labels that carry their option's letter at position 7 are pairwise different. */
  lemma LabelsDistinct(options: seq<string>, labels: seq<string>)
    requires |options| <= MaxLetteredOptions && |labels| == |options|
    requires forall i :: 0 <= i < |options| ==> labels[i] == OptionLabel(i, options[i])
    ensures forall i, j :: 0 <= i < j < |labels| ==> labels[i] != labels[j]
  {
    forall i, j | 0 <= i < j < |labels|
      ensures labels[i] != labels[j]
    {
      assert labels[i][7] == Letter(i);
      assert labels[j][7] == Letter(j);
    }
  }

  /** The summed length of `parts`. */
  function TotalLength(parts: seq<string>): nat {
    if parts == [] then 0 else |parts[0]| + TotalLength(parts[1..])
  }

  /** `parts.join(sep)`: every part, with one separator between each two neighbours. */
  function Join(parts: seq<string>, sep: string): (r: string)
    ensures |r| == TotalLength(parts) + (if parts == [] then 0 else (|parts| - 1) * |sep|)
  {
    if |parts| == 0 then ""
    else if |parts| == 1 then parts[0]
    else parts[0] + sep + Join(parts[1..], sep)
  }

  /** Where part `i` begins in `Join(parts, sep)`: after every earlier part and its separator. */
  function Offset(parts: seq<string>, sep: string, i: nat): nat
    requires i <= |parts|
  {
    if i == 0 then 0 else |parts[0]| + |sep| + Offset(parts[1..], sep, i - 1)
  }

  /** From the offset of part `i` on, the joined string is the join of parts `i..`. */
  lemma {:induction false} JoinFromOffset(parts: seq<string>, sep: string, i: nat)
    requires i < |parts|
    ensures Offset(parts, sep, i) <= |Join(parts, sep)|
    ensures Join(parts, sep)[Offset(parts, sep, i)..] == Join(parts[i..], sep)
  {
    if i > 0 {
      var rest := Join(parts[1..], sep);
      var head := |parts[0]| + |sep|;
      assert Join(parts, sep) == parts[0] + sep + rest;
      JoinFromOffset(parts[1..], sep, i - 1);
      assert parts[1..][i - 1..] == parts[i..];
    }
  }

  /**
   * In the joined string, part `i` sits whole at its offset and, unless it
   * is the last, is followed by the separator and then part `i + 1`: the
   * parts appear in their original order.
   */
  lemma JoinPlacesPart(parts: seq<string>, sep: string, i: nat)
    requires i < |parts|
    ensures var j, p := Join(parts, sep), Offset(parts, sep, i);
      && p + |parts[i]| <= |j|
      && j[p..p + |parts[i]|] == parts[i]
      && (i + 1 < |parts| ==>
            && p + |parts[i]| + |sep| <= |j|
            && j[p + |parts[i]|..p + |parts[i]| + |sep|] == sep
            && Offset(parts, sep, i + 1) == p + |parts[i]| + |sep|)
  {
    JoinFromOffset(parts, sep, i);
    var tail := parts[i..];
    if i + 1 < |parts| {
      assert Join(tail, sep) == parts[i] + sep + Join(tail[1..], sep);
      JoinFromOffset(parts, sep, i + 1);
      OffsetStep(parts, sep, i);
    }
  }

  /** Each offset is the previous one plus the previous part and a separator. */
  lemma {:induction false} OffsetStep(parts: seq<string>, sep: string, i: nat)
    requires i + 1 <= |parts|
    ensures Offset(parts, sep, i + 1) == Offset(parts, sep, i) + |parts[i]| + |sep|
  {
    if i > 0 {
      OffsetStep(parts[1..], sep, i - 1);
    }
  }

  /** The options text: the lettered options joined with commas, or empty when the card has no options. */
  function OptionsText(options: Option<seq<string>>): (text: string)
    requires options.Some? ==> |options.value| <= MaxLetteredOptions
    ensures text == "" <==> options.None? || options.value == []
  {
    match options
    case None => ""
    case Some(opts) => Join(Labels(opts), OptionSeparator)
  }

  /**
   * Option `i` appears in the options text as `Option <letter i>: <opt>` at
   * its offset, followed by `, ` unless it is the last; a card without
   * options and a card with an empty list read the same.
   */
  lemma OptionsTextPlacesOption(opts: seq<string>, i: nat)
    requires |opts| <= MaxLetteredOptions && i < |opts|
    ensures var text, p, lab := OptionsText(Some(opts)), Offset(Labels(opts), OptionSeparator, i), OptionLabel(i, opts[i]);
      && p + |lab| <= |text| && text[p..p + |lab|] == lab
      && (i + 1 < |opts| ==> p + |lab| + 2 <= |text| && text[p + |lab|..p + |lab| + 2] == OptionSeparator)
    ensures OptionsText(Some([])) == OptionsText(None) == ""
  {
    JoinPlacesPart(Labels(opts), OptionSeparator, i);
  }

  predicate LabelsFit(q: Question) {
    q.options.Some? ==> |q.options.value| <= MaxLetteredOptions
  }

  /**
   * `handleReadCard`: no prompt without a card; for a flipped card, the
   * answer announcement; otherwise the question with its lettered options.
   */
  function ReadCardPrompt(question: Option<Question>, isFlipped: bool): (prompt: Option<string>)
    requires question.Some? ==> LabelsFit(question.value)
    ensures prompt.Some? <==> question.Some?
  {
    match question
    case None => None
    case Some(q) =>
      if isFlipped then Some(AnswerLead + q.answer + "\"")
      else Some(QuestionLead + q.text + OptionsLead + OptionsText(q.options) + QuestionTail)
  }

  /** The prompt for a flipped card quotes its answer right after the announcement lead and ends with the closing quote. */
  lemma FlippedPromptQuotesAnswer(q: Question)
    requires LabelsFit(q)
    ensures var p := ReadCardPrompt(Some(q), true).value;
      var a := |AnswerLead|;
      && |p| == a + |q.answer| + 1
      && p[..a] == AnswerLead && p[a..a + |q.answer|] == q.answer && p[|p| - 1] == '"'
  {
  }

  /**
   * The prompt for a card face up quotes its text right after the question
   * lead, then gives the options text after the options lead, and ends with
   * the request to guess.
   */
  lemma QuestionPromptLayout(q: Question)
    requires LabelsFit(q)
    ensures var p := ReadCardPrompt(Some(q), false).value;
      var t := |QuestionLead|;
      var o := t + |q.text| + |OptionsLead|;
      var opts := OptionsText(q.options);
      && |p| == o + |opts| + |QuestionTail|
      && p[..t] == QuestionLead && p[t..t + |q.text|] == q.text
      && p[t + |q.text|..o] == OptionsLead
      && p[o..o + |opts|] == opts
      && p[o + |opts|..] == QuestionTail
  {
  }

  /** The read button is shown only while connected and a card is on screen. */
  predicate ShowReadButton(isConnected: bool, question: Option<Question>) {
    isConnected && question.Some?
  }

  /** What the main button does. */
  datatype HostAction = Connect | Disconnect

  /** The main button disconnects while connected and connects otherwise. */
  function MainButtonAction(isConnected: bool): HostAction {
    if isConnected then Disconnect else Connect
  }

  /** Whenever the read button is offered, pressing it produces a prompt. */
  lemma ShownReadButtonYieldsPrompt(isConnected: bool, question: Option<Question>, isFlipped: bool)
    requires question.Some? ==> LabelsFit(question.value)
    ensures ShowReadButton(isConnected, question) ==> ReadCardPrompt(question, isFlipped).Some?
  {
  }

  /**
   * Pressing the main button: a connected host is torn down; otherwise a
   * connection is attempted, which clears any earlier error on success and
   * records one on failure.
   */
  method PressMainButton(host: GeminiLive.LiveSession, outcome: GeminiLive.ConnectOutcome)
    requires host.Valid()
    modifies host
    ensures host.Valid()
    ensures host.nextStartTime == old(host.nextStartTime) && host.activeSources == old(host.activeSources)
    ensures host.slots == old(host.slots) && host.created == old(host.created)
    ensures old(host.isConnected) ==>
      && host.Disconnected() && host.error == old(host.error)
      && host.inputNode == old(host.inputNode) && host.outputNode == old(host.outputNode)
    ensures !old(host.isConnected) ==>
      && host.inputContext && host.outputContext && host.inputNode && host.outputNode
      && host.isSpeaking == old(host.isSpeaking)
      && host.processor == old(host.processor) && host.source == old(host.source)
      && (outcome.MicrophoneGranted? ==> host.error == None && host.stream && host.session && !host.isConnected)
      && (outcome.Threw? ==>
            && host.error == Some(if outcome.message == "" then GeminiLive.ConnectFailedText else outcome.message)
            && !host.isConnected && host.stream == old(host.stream) && host.session == old(host.session))
  {
    match MainButtonAction(host.isConnected) {
      case Disconnect => host.Disconnect();
      case Connect => host.Connect(outcome);
    }
  }

  /**
   * Pressing the read button: the prompt for the card is handed to the
   * session's `sendText`, so it goes out exactly when there is a card and a
   * session handle is held.
   */
  method ReadCard(host: GeminiLive.LiveSession, question: Option<Question>, isFlipped: bool)
    returns (sent: Option<string>)
    requires question.Some? ==> LabelsFit(question.value)
    ensures sent.Some? <==> question.Some? && host.session
    ensures sent.Some? ==> sent == ReadCardPrompt(question, isFlipped)
  {
    var prompt := ReadCardPrompt(question, isFlipped);
    if prompt.None? {
      return None;
    }
    sent := host.SendText(prompt.value);
  }
}
