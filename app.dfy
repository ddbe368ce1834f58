/**
 * The quiz deck of the application component: the option shuffle, the
 * question form, deletion and play-mode navigation over the deck.
 */
module App {
  import opened Types
  import opened Text

  /** The deck used when nothing has been stored yet. */
  const InitialQuestions: seq<Question> := [
    Question("1", "What is my favorite comfort food?", "Mac and Cheese",
      Some(["Pizza", "Mac and Cheese", "Sushi", "Ice Cream"]), None, Some("Food"),
      Some("Thomas Jefferson popularized Mac and Cheese in America after trying it in Paris.")),
    Question("2", "Which city was I born in?", "Chicago",
      Some(["New York", "Los Angeles", "Chicago", "Houston"]), None, Some("Origins"),
      Some("The name Chicago comes from a Native American word for wild garlic that grew in the area.")),
    Question("3", "What was the name of my first pet?", "Buster",
      Some(["Buster", "Fluffy", "Rex", "Luna"]), None, Some("History"),
      Some("Buster is one of the most popular dog names of the last 100 years."))
  ]

  /** The category a question gets when the form leaves it empty. */
  const DefaultCategory := "Trivia"

  // ---------------------------------------------------------------------
  // Fisher–Yates shuffle

  /** `s` with the elements at `i` and `j` exchanged. */
  function Swap<T>(s: seq<T>, i: nat, j: nat): (r: seq<T>)
    requires i < |s| && j < |s|
    ensures |r| == |s| && r[i] == s[j] && r[j] == s[i]
    ensures forall k :: 0 <= k < |s| && k != i && k != j ==> r[k] == s[k]
  {
    s[i := s[j]][j := s[i]]
  }

  /**
   * Random indices a shuffle of `n` elements may use: the pass at position
   * `i` swaps it with position `picks[i]`, somewhere in `0..i` (the source
   * draws it as `floor(random() * (i + 1))`).
   */
  predicate ValidPicks(picks: seq<nat>, n: nat) {
    n <= |picks| && forall i :: 0 < i < n ==> picks[i] <= i
  }

  /** The passes for positions `hi`, `hi - 1`, ..., 1, in that order. */
  function SwapDown<T>(s: seq<T>, picks: seq<nat>, hi: nat): (r: seq<T>)
    requires hi < |s| && ValidPicks(picks, |s|)
    ensures |r| == |s|
    decreases hi
  {
    if hi == 0 then s else SwapDown(Swap(s, hi, picks[hi]), picks, hi - 1)
  }

  /** The whole Fisher–Yates pass, from the last position down to 1. */
  function FisherYates<T>(s: seq<T>, picks: seq<nat>): (r: seq<T>)
    requires ValidPicks(picks, |s|)
    ensures |r| == |s|
  {
    if |s| == 0 then s else SwapDown(s, picks, |s| - 1)
  }

  /** A swap only moves elements around. */
  lemma SwapPermutes<T>(s: seq<T>, i: nat, j: nat)
    requires i < |s| && j < |s|
    ensures multiset(Swap(s, i, j)) == multiset(s)
  {
    var t := s[i := s[j]];
    assert multiset(t) == multiset(s) - multiset{s[i]} + multiset{s[j]};
  }

  /** Every pass of the shuffle, and so the whole shuffle, is a permutation of its input. */
  lemma {:induction false} SwapDownPermutes<T>(s: seq<T>, picks: seq<nat>, hi: nat)
    requires hi < |s| && ValidPicks(picks, |s|)
    ensures multiset(SwapDown(s, picks, hi)) == multiset(s)
    decreases hi
  {
    if hi > 0 {
      SwapPermutes(s, hi, picks[hi]);
      SwapDownPermutes(Swap(s, hi, picks[hi]), picks, hi - 1);
    }
  }

  lemma FisherYatesPermutes<T>(s: seq<T>, picks: seq<nat>)
    requires ValidPicks(picks, |s|)
    ensures multiset(FisherYates(s, picks)) == multiset(s)
  {
    if |s| > 0 {
      SwapDownPermutes(s, picks, |s| - 1);
    }
  }

  /**
   * `shuffleArray`: copies its argument into a fresh array and shuffles the
   * copy in place. The argument is a value here, so it cannot be changed;
   * the result is a permutation of it.
   */
  method ShuffleArray(input: seq<string>, picks: seq<nat>) returns (shuffled: seq<string>)
    requires ValidPicks(picks, |input|)
    ensures shuffled == FisherYates(input, picks)
    ensures |shuffled| == |input| && multiset(shuffled) == multiset(input)
  {
    var a := new string[|input|](k requires 0 <= k < |input| => input[k]);
    assert a[..] == input;
    var i := a.Length - 1;
    while i > 0
      invariant a.Length == |input|
      invariant if a.Length == 0 then i == -1 else 0 <= i < a.Length
      invariant a.Length > 0 ==> SwapDown(a[..], picks, i) == FisherYates(input, picks)
    {
      var j := picks[i];
      ghost var before := a[..];
      var t := a[i];
      a[i] := a[j];
      a[j] := t;
      assert a[..] == Swap(before, i, j);
      i := i - 1;
    }
    shuffled := a[..];
    FisherYatesPermutes(input, picks);
  }

  // ---------------------------------------------------------------------
  // Filtering

  /** `xs.filter(keep)`: the elements `keep` accepts, in their original order. */
  function Filter<T(!new)>(xs: seq<T>, keep: T -> bool): (r: seq<T>)
    ensures |r| <= |xs|
    ensures forall k :: 0 <= k < |r| ==> keep(r[k]) && r[k] in xs
  {
    if xs == [] then [] else (if keep(xs[0]) then [xs[0]] else []) + Filter(xs[1..], keep)
  }

  /** Every element `keep` accepts occurs in the result as often as in `xs`; the others not at all. */
  lemma {:induction false} FilterCounts<T(!new)>(xs: seq<T>, keep: T -> bool, x: T)
    ensures multiset(Filter(xs, keep))[x] == if keep(x) then multiset(xs)[x] else 0
  {
    if xs != [] {
      assert xs == [xs[0]] + xs[1..];
      FilterCounts(xs[1..], keep, x);
    }
  }

  /** Filtering a concatenation filters each part: the order of what is kept is the original order. */
  lemma {:induction false} FilterAppend<T(!new)>(xs: seq<T>, ys: seq<T>, keep: T -> bool)
    ensures Filter(xs + ys, keep) == Filter(xs, keep) + Filter(ys, keep)
  {
    if xs != [] {
      var head := if keep(xs[0]) then [xs[0]] else [];
      assert (xs + ys)[0] == xs[0];
      assert (xs + ys)[1..] == xs[1..] + ys;
      assert Filter(xs + ys, keep) == head + Filter(xs[1..] + ys, keep);
      FilterAppend(xs[1..], ys, keep);
      assert Filter(xs, keep) == head + Filter(xs[1..], keep);
    } else {
      assert xs + ys == ys;
    }
  }

  /** Filtering with a predicate every element passes changes nothing. */
  lemma {:induction false} FilterKeepsAll<T(!new)>(xs: seq<T>, keep: T -> bool)
    requires forall k :: 0 <= k < |xs| ==> keep(xs[k])
    ensures Filter(xs, keep) == xs
  {
    if xs != [] {
      FilterKeepsAll(xs[1..], keep);
    }
  }

  // ---------------------------------------------------------------------
  // Building a question from the form

  /** `s.trim() !== ''`, which holds exactly when `s` has a character other than white space. */
  predicate IsFilled(s: string)
    ensures IsFilled(s) <==> Trim(s) != ""
  {
    TrimEmptyIffBlank(s);
    !IsBlank(s)
  }

  /**
   * The entry form: question text, answer, three distractors, category, fun
   * fact, the generated image (a data URL, or null) and the image prompt.
   */
  datatype Form = Form(
    text: string, answer: string,
    distractor1: string, distractor2: string, distractor3: string,
    category: string, funFact: string,
    generatedImage: Option<string>, imagePrompt: string)
  {
    /** The save button's test: question text, answer and first distractor all non-blank. */
    predicate Accepted()
      ensures Accepted() <==> Trim(text) != "" && Trim(answer) != "" && Trim(distractor1) != ""
    {
      IsFilled(text) && IsFilled(answer) && IsFilled(distractor1)
    }

    /** The options before shuffling: the non-blank entries among the answer and the three distractors, in that order. */
    function Options(): (opts: seq<string>)
      ensures |opts| <= 4
      ensures forall k :: 0 <= k < |opts| ==>
        Trim(opts[k]) != "" && opts[k] in [answer, distractor1, distractor2, distractor3]
    {
      Filter([answer, distractor1, distractor2, distractor3], IsFilled)
    }
  }

  /** Every field empty and no generated image. */
  const EmptyForm := Form("", "", "", "", "", "", "", None, "")

  /**
   * On an accepted form the options start with the answer and then the first
   * distractor, hold two to four entries, none of them blank, and the other
   * distractors appear exactly when they are filled. Duplicates are kept.
   */
  lemma AcceptedFormOptions(f: Form)
    requires f.Accepted()
    ensures var opts := f.Options();
      && 2 <= |opts| <= 4 && opts[0] == f.answer && opts[1] == f.distractor1
      && (|opts| == 2 <==> !IsFilled(f.distractor2) && !IsFilled(f.distractor3))
      && (|opts| == 4 <==> IsFilled(f.distractor2) && IsFilled(f.distractor3))
      && (forall k :: 0 <= k < |opts| ==> IsFilled(opts[k]))
      && opts[2..] == Filter([f.distractor2, f.distractor3], IsFilled)
  {
    var a, d1, d2, d3 := f.answer, f.distractor1, f.distractor2, f.distractor3;
    assert [a, d1, d2, d3] == [a, d1] + [d2, d3];
    FilterAppend([a, d1], [d2, d3], IsFilled);
    FilterKeepsAll([a, d1], IsFilled);
    assert [d2, d3] == [d2] + [d3];
    FilterAppend([d2], [d3], IsFilled);
  }

  /**
   * The question `addQuestion` builds from form `f`, the clock reading
   * `stamp` and the shuffled options: an empty category becomes the default,
   * an empty fun fact or image is left out.
   */
  function NewQuestion(stamp: string, f: Form, shuffled: seq<string>): (q: Question)
    ensures q.options.Some? && q.category.Some? && q.category.value != ""
    ensures q.funFact != Some("") && q.imageUrl != Some("")
  {
    Question(
      stamp, f.text, f.answer,
      Some(if |shuffled| >= 2 then shuffled else f.Options()),
      if f.generatedImage == Some("") then None else f.generatedImage,
      Some(if f.category == "" then DefaultCategory else f.category),
      if f.funFact == "" then None else Some(f.funFact))
  }

  /**
   * The question added from an accepted form carries the answer and the
   * first distractor among two to four non-blank options that are a
   * permutation of the form's options, the default category when none was
   * given, and no fun fact or image when those were empty.
   */
  lemma AddedQuestionShape(f: Form, stamp: string, picks: seq<nat>)
    requires f.Accepted() && ValidPicks(picks, 4)
    ensures var q := NewQuestion(stamp, f, FisherYates(f.Options(), picks));
      && q.id == stamp && q.text == f.text && q.answer == f.answer
      && q.options.Some?
      && multiset(q.options.value) == multiset(f.Options())
      && f.answer in q.options.value && f.distractor1 in q.options.value
      && 2 <= |q.options.value| <= 4
      && (forall k :: 0 <= k < |q.options.value| ==> IsFilled(q.options.value[k]))
      && q.category == Some(if f.category == "" then DefaultCategory else f.category)
      && (q.funFact.None? <==> f.funFact == "")
      && (q.imageUrl.None? <==> f.generatedImage in {None, Some("")})
      && (f.funFact != "" ==> q.funFact == Some(f.funFact))
      && (q.imageUrl.Some? ==> q.imageUrl == f.generatedImage)
  {
    var opts := f.Options();
    AcceptedFormOptions(f);
    var shuffled := FisherYates(opts, picks);
    FisherYatesPermutes(opts, picks);
    assert opts[0] in multiset(opts) && opts[1] in multiset(opts);
    assert f.answer in multiset(shuffled) && f.distractor1 in multiset(shuffled);
    forall k | 0 <= k < |shuffled|
      ensures IsFilled(shuffled[k])
    {
      assert shuffled[k] in multiset(opts);
    }
  }

  // ---------------------------------------------------------------------
  // Deletion

  /** `questions.filter(q => q.id !== id)`. */
  function WithoutId(qs: seq<Question>, id: string): (r: seq<Question>)
    ensures forall k :: 0 <= k < |r| ==> r[k].id != id
  {
    Filter(qs, IdDiffers(id))
  }

  /** A question with another id is kept as many times as it occurred; one with this id is gone. */
  lemma DeleteCounts(qs: seq<Question>, id: string, q: Question)
    ensures multiset(WithoutId(qs, id))[q] == if q.id != id then multiset(qs)[q] else 0
  {
    FilterCounts(qs, IdDiffers(id), q);
  }

  /** The predicate `q => q.id !== id`. */
  function IdDiffers(id: string): Question -> bool {
    (q: Question) => q.id != id
  }

  predicate HasId(qs: seq<Question>, id: string) {
    exists k :: 0 <= k < |qs| && qs[k].id == id
  }

  /** Deleting an id no question carries leaves the deck as it is. */
  lemma DeleteAbsentIsNoop(qs: seq<Question>, id: string)
    requires !HasId(qs, id)
    ensures WithoutId(qs, id) == qs
  {
    FilterKeepsAll(qs, IdDiffers(id));
  }

  /** Deleting the id of a question just appended, when no earlier question carried it, restores the earlier deck. */
  lemma DeleteUndoesAdd(qs: seq<Question>, q: Question)
    requires !HasId(qs, q.id)
    ensures WithoutId(qs + [q], q.id) == qs
  {
    FilterAppend(qs, [q], IdDiffers(q.id));
    DeleteAbsentIsNoop(qs, q.id);
  }

  /** Deletion keeps the relative order of the kept questions: it distributes over concatenation. */
  lemma DeleteKeepsOrder(xs: seq<Question>, ys: seq<Question>, id: string)
    ensures WithoutId(xs + ys, id) == WithoutId(xs, id) + WithoutId(ys, id)
  {
    FilterAppend(xs, ys, IdDiffers(id));
  }

  // ---------------------------------------------------------------------
  // Navigation over a deck of n cards

  /** `(prev + 1) % n`; both operands are non-negative, so JavaScript's `%` agrees with Dafny's. */
  function Next(i: nat, n: nat): (r: nat)
    requires n > 0
    ensures r < n
    ensures i + 1 < n ==> r == i + 1
    ensures i == n - 1 ==> r == 0
  {
    (i + 1) % n
  }

  /** `(prev - 1 + n) % n`; the dividend is non-negative because `prev` is. */
  function Prev(i: nat, n: nat): (r: nat)
    requires n > 0
    ensures r < n
    ensures 0 < i <= n ==> r == i - 1
    ensures i == 0 ==> r == n - 1
  {
    (i - 1 + n) % n
  }

  /** Going back after going forward returns to the same card, and so does the reverse. */
  lemma PrevNextInverse(i: nat, n: nat)
    requires i < n
    ensures Prev(Next(i, n), n) == i
    ensures Next(Prev(i, n), n) == i
  {
  }

  /** The card reached from card `i` after pressing next `k` times. */
  function Advance(i: nat, n: nat, k: nat): (r: nat)
    requires i < n
    ensures r < n
  {
    if k == 0 then i else Next(Advance(i, n, k - 1), n)
  }

  /**
   * Within one lap, pressing next `k` times from card `i` lands on card
   * `(i + k) mod n`, and after `n` presses the deck has come full circle.
   */
  lemma {:induction false} AdvanceWithinLap(i: nat, n: nat, k: nat)
    requires i < n && k <= n
    ensures Advance(i, n, k) == if i + k < n then i + k else i + k - n
  {
    if k > 0 {
      AdvanceWithinLap(i, n, k - 1);
    }
  }

  /** Pressing next `n` times on a deck of `n` cards comes back to the starting card. */
  lemma AdvanceFullLap(i: nat, n: nat)
    requires i < n
    ensures Advance(i, n, n) == i
  {
    AdvanceWithinLap(i, n, n);
  }

  // ---------------------------------------------------------------------
  // Component state

  /**
   * The state of the application component that the deck operations update:
   * the deck, the play-mode position and flip flag, and the entry form.
   */
  class QuizApp {
    var questions: seq<Question>
    var currentCardIndex: nat
    var isFlipped: bool
    var form: Form

    /** Starts from the stored deck, or from the built-in one when nothing is stored. */
    constructor (saved: Option<seq<Question>>)
      ensures questions == (if saved.Some? then saved.value else InitialQuestions)
      ensures currentCardIndex == 0 && !isFlipped && form == EmptyForm
    {
      questions := if saved.Some? then saved.value else InitialQuestions;
      currentCardIndex := 0;
      isFlipped := false;
      form := EmptyForm;
    }

    /** The form's change handlers: the user types into the fields. */
    method EditForm(f: Form)
      modifies this`form
      ensures form == f
    {
      form := f;
    }

    /**
     * `addQuestion`. `stamp` is the clock reading used as the id and `picks`
     * the shuffle's random draws. A form with a blank question, answer or
     * first distractor changes nothing; otherwise exactly one question is
     * appended after the existing ones and the form is cleared.
     */
    method AddQuestion(stamp: string, picks: seq<nat>) returns (added: bool)
      requires ValidPicks(picks, 4)
      modifies this`questions, this`form
      ensures added == old(form).Accepted()
      ensures !added ==> questions == old(questions) && form == old(form)
      ensures added ==> form == EmptyForm
      ensures added ==> questions == old(questions) + [NewQuestion(stamp, old(form), FisherYates(old(form).Options(), picks))]
    {
      if !form.Accepted() {
        return false;
      }
      var allOptions := form.Options();
      var shuffled := ShuffleArray(allOptions, picks);
      questions := questions + [NewQuestion(stamp, form, shuffled)];
      form := EmptyForm;
      added := true;
    }

    /** `deleteQuestion`: keeps exactly the questions with a different id, in order. */
    method DeleteQuestion(id: string)
      modifies this`questions
      ensures questions == WithoutId(old(questions), id)
    {
      questions := WithoutId(questions, id);
    }

    /** `nextCard`: unflips the card and moves to the next one, wrapping at the end. */
    method NextCard()
      requires |questions| > 0
      modifies this`currentCardIndex, this`isFlipped
      ensures !isFlipped && currentCardIndex == Next(old(currentCardIndex), |questions|)
    {
      isFlipped := false;
      currentCardIndex := (currentCardIndex + 1) % |questions|;
    }

    /** `prevCard`: unflips the card and moves to the previous one, wrapping at the start. */
    method PrevCard()
      requires |questions| > 0
      modifies this`currentCardIndex, this`isFlipped
      ensures !isFlipped && currentCardIndex == Prev(old(currentCardIndex), |questions|)
    {
      isFlipped := false;
      currentCardIndex := (currentCardIndex - 1 + |questions|) % |questions|;
    }

    /** `resetGame`: back to the first card, face down. */
    method ResetGame()
      modifies this`currentCardIndex, this`isFlipped
      ensures !isFlipped && currentCardIndex == 0
    {
      isFlipped := false;
      currentCardIndex := 0;
    }
  }
}
