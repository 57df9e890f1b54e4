/** The flashcard view (src/components/study/StudyMode.tsx): which questions are on the deck,
    the card index that wraps around it, and the question-file import. */
module StudyMode {
  import opened Wrappers
  import opened Types
  import opened Seqs
  import opened Json
  import ExportImport
  import UseStorage

  /** The deck: every question, or with "Study Needs" on (`showMastered` false) the
      questions that are not mastered. */
  function ActiveQuestions(questions: seq<CivicsQuestion>, mastery: MasteryStore, showMastered: bool): seq<CivicsQuestion> {
    if showMastered then questions else Filter(questions, (q: CivicsQuestion) => !IsMastered(mastery, q.id))
  }

  /** A question is on the deck exactly when it is a question and the deck shows mastered
      ones or it is not mastered. */
  lemma ActiveQuestionsMembers(questions: seq<CivicsQuestion>, mastery: MasteryStore, showMastered: bool, q: CivicsQuestion)
    ensures q in ActiveQuestions(questions, mastery, showMastered) <==> q in questions && (showMastered || !IsMastered(mastery, q.id))
  {
    if !showMastered {
      FilterMembers(questions, (q: CivicsQuestion) => !IsMastered(mastery, q.id), q);
    }
  }

  /** Each question on the deck appears as often as among the questions, unless hidden. */
  lemma ActiveQuestionsCount(questions: seq<CivicsQuestion>, mastery: MasteryStore, showMastered: bool, q: CivicsQuestion)
    ensures multiset(ActiveQuestions(questions, mastery, showMastered))[q]
         == if showMastered || !IsMastered(mastery, q.id) then multiset(questions)[q] else 0
  {
    if !showMastered {
      FilterCount(questions, (q: CivicsQuestion) => !IsMastered(mastery, q.id), q);
    }
  }

  /** The deck keeps the questions' order: the deck of a concatenation is the concatenation
      of the decks. */
  lemma ActiveQuestionsOrder(a: seq<CivicsQuestion>, b: seq<CivicsQuestion>, mastery: MasteryStore, showMastered: bool)
    ensures ActiveQuestions(a + b, mastery, showMastered)
         == ActiveQuestions(a, mastery, showMastered) + ActiveQuestions(b, mastery, showMastered)
  {
    if !showMastered {
      FilterConcat(a, b, (q: CivicsQuestion) => !IsMastered(mastery, q.id));
    }
  }

  /** The "Study Needs" deck is empty exactly when every question is mastered, so right
      after the switch (`NoCardAfterSwitch`) the "All questions mastered!" message is shown
      exactly when it is true. */
  lemma StudyNeedsEmpty(questions: seq<CivicsQuestion>, mastery: MasteryStore)
    ensures ActiveQuestions(questions, mastery, false) == [] <==> forall q :: q in questions ==> IsMastered(mastery, q.id)
  {
    var deck := ActiveQuestions(questions, mastery, false);
    if deck == [] {
      forall q | q in questions
        ensures IsMastered(mastery, q.id)
      {
        ActiveQuestionsMembers(questions, mastery, false, q);
      }
    } else {
      ActiveQuestionsMembers(questions, mastery, false, deck[0]);
    }
  }

  /** JavaScript's `%`: the remainder of truncating division, which takes the dividend's sign. */
  function JsRem(a: int, n: int): (r: int)
    requires n > 0
    ensures 0 <= a ==> 0 <= r < n
    ensures a < 0 ==> -n < r <= 0
    ensures 0 <= a < n ==> r == a
    ensures exists q: int :: a == q * n + r
  {
    if a >= 0 then
      SmallRemainder(a, n);
      assert a == (a / n) * n + a % n;
      a % n
    else
      assert -a == ((-a) / n) * n + (-a) % n;
      assert a == (-((-a) / n)) * n + -((-a) % n);
      -((-a) % n)
  }

  /** A dividend below the divisor is its own remainder. */
  lemma SmallRemainder(a: int, n: int)
    requires 0 <= a && n > 0
    ensures a < n ==> a % n == a
  {
    if a < n {
      var q := a / n;
      assert a == n * q + a % n;
    }
  }

  /** `nextCard`'s index: one card on, from the last card back to the first. */
  function NextIndex(i: int, n: int): (r: int)
    requires n > 0
    ensures 0 <= i ==> 0 <= r < n
    ensures 0 <= i < n ==> r == if i == n - 1 then 0 else i + 1
  {
    JsRem(i + 1, n)
  }

  /** `prevCard`'s index: one card back, from the first card to the last. */
  function PrevIndex(i: int, n: int): (r: int)
    requires n > 0
    ensures 1 - n <= i ==> 0 <= r < n
    ensures 0 <= i < n ==> r == if i == 0 then n - 1 else i - 1
  {
    JsRem(i - 1 + n, n)
  }

  /** Back after forward returns to the same card, ... */
  lemma PrevUndoesNext(i: int, n: int)
    requires 0 <= i < n
    ensures PrevIndex(NextIndex(i, n), n) == i
  {
  }

  /** ... and so does forward after back. */
  lemma NextUndoesPrev(i: int, n: int)
    requires 0 <= i < n
    ensures NextIndex(PrevIndex(i, n), n) == i
  {
  }

  /** The index after pressing "next" `k` times. */
  function Forward(i: int, n: int, k: nat): int
    requires n > 0
  {
    if k == 0 then i else NextIndex(Forward(i, n, k - 1), n)
  }

  /** Within one lap, `k` presses move `k` cards on, wrapping past the last card. */
  lemma {:induction false} ForwardSteps(i: int, n: int, k: nat)
    requires 0 <= i < n && k <= n
    ensures Forward(i, n, k) == if i + k < n then i + k else i + k - n
  {
    if k > 0 {
      ForwardSteps(i, n, k - 1);
    }
  }

  /** Pressing "next" once per card on the deck comes back to the card one started from. */
  lemma FullLap(i: int, n: int)
    requires 0 <= i < n
    ensures Forward(i, n, n) == i
  {
    ForwardSteps(i, n, n);
  }

  /** `activeQuestions[currentIndex]`: the card on screen, none past the end of the deck. */
  function CardAt(deck: seq<CivicsQuestion>, index: int): (r: Option<CivicsQuestion>)
    ensures r.Some? <==> 0 <= index < |deck|
    ensures r.Some? ==> r.value in deck
  {
    if 0 <= index < |deck| then Some(deck[index]) else None
  }

  /** Right after the "Study Needs" switch the index is 0, so no card is shown exactly when
      the deck is empty. */
  lemma NoCardAfterSwitch(questions: seq<CivicsQuestion>, mastery: MasteryStore, showMastered: bool)
    ensures CardAt(ActiveQuestions(questions, mastery, showMastered), 0).None? <==> ActiveQuestions(questions, mastery, showMastered) == []
  {
  }

  const Q1 := CivicsQuestion(1, "", "", "")
  const Q2 := CivicsQuestion(2, "", "", "")

  /** Marking the last card of the "Study Needs" deck mastered leaves the index past the
      shrunken deck: no card is shown although a question still needs study. */
  lemma MasteringLastCardHidesDeck()
    ensures var deck := ActiveQuestions([Q1, Q2], map[], false);
            && CardAt(deck, 1) == Some(Q2)
            && var after := ActiveQuestions([Q1, Q2], UseStorage.Toggled(map[], 2), false);
               after == [Q1] && CardAt(after, 1).None?
  {
    assert Filter([Q2], (q: CivicsQuestion) => !IsMastered(map[], q.id)) == [Q2];
    assert Filter([Q2], (q: CivicsQuestion) => !IsMastered(map[2 := true], q.id)) == [];
    assert [Q1, Q2][1..] == [Q2];
  }

  /** The view's own state: the card index, which side is up, and whether mastered
      questions are on the deck. */
  class StudySession {
    var currentIndex: int
    var isFlipped: bool
    var showMastered: bool

    /** A fresh view: the first card, question side up, every question on the deck. */
    constructor()
      ensures currentIndex == 0 && !isFlipped && showMastered
    {
      currentIndex := 0;
      isFlipped := false;
      showMastered := true;
    }

    /** The "next" arrow, shown only while a card is: question side up, then one card on. */
    method NextCard(deck: seq<CivicsQuestion>)
      requires 0 <= currentIndex < |deck|
      modifies this
      ensures currentIndex == NextIndex(old(currentIndex), |deck|)
      ensures CardAt(deck, currentIndex).Some?
      ensures !isFlipped && showMastered == old(showMastered)
    {
      isFlipped := false;
      currentIndex := NextIndex(currentIndex, |deck|);
    }

    /** The "previous" arrow: question side up, then one card back. */
    method PrevCard(deck: seq<CivicsQuestion>)
      requires 0 <= currentIndex < |deck|
      modifies this
      ensures currentIndex == PrevIndex(old(currentIndex), |deck|)
      ensures CardAt(deck, currentIndex).Some?
      ensures !isFlipped && showMastered == old(showMastered)
    {
      isFlipped := false;
      currentIndex := PrevIndex(currentIndex, |deck|);
    }

    /** A click on the card turns it over; the card is rendered only while one is shown. */
    method Flip(deck: seq<CivicsQuestion>)
      requires 0 <= currentIndex < |deck|
      modifies this
      ensures isFlipped == !old(isFlipped)
      ensures currentIndex == old(currentIndex) && showMastered == old(showMastered)
    {
      isFlipped := !isFlipped;
    }

    /** The "Study Needs" checkbox: switch the deck and go back to its first card. The
        checkbox is rendered only while a card is shown, so the "No questions available"
        screen offers no way back. */
    method ToggleStudyNeeds(deck: seq<CivicsQuestion>)
      requires 0 <= currentIndex < |deck|
      modifies this
      ensures showMastered == !old(showMastered) && currentIndex == 0
      ensures isFlipped == old(isFlipped)
    {
      showMastered := !showMastered;
      currentIndex := 0;
    }
  }

  /** What a question file leads to: its array handed on to the question list, nothing, or
      the "Invalid JSON" alert. */
  datatype QuestionImport = Forwarded(items: seq<Json>) | NotAnArray | InvalidJson

  /** `handleImport`: a parsed array is forwarded as it is, any other parsed value is
      ignored, and text that does not parse raises the alert. */
  function HandleImport(input: ExportImport.ImportInput): (r: QuestionImport)
    ensures r.InvalidJson? <==> input.Unparseable?
    ensures r.Forwarded? <==> input.Parsed? && input.value.JArr?
    ensures r.Forwarded? ==> r.items == input.value.items
  {
    match input
    case Unparseable => InvalidJson
    case Parsed(v) => if v.JArr? then Forwarded(v.items) else NotAnArray
  }

  /** The alert each outcome raises. */
  function ImportAlert(r: QuestionImport): (m: Option<string>)
    ensures m.None? <==> r.NotAnArray?
  {
    match r
    case Forwarded(_) => Some("Questions Imported")
    case NotAnArray => None
    case InvalidJson => Some("Invalid JSON")
  }

  /** The elements are not checked: an array holding a value that the full-backup import
      would reject as a question is forwarded all the same. */
  lemma NoElementValidation()
    ensures HandleImport(ExportImport.Parsed(JArr([JNull]))) == Forwarded([JNull])
    ensures !ExportImport.IsValidQuestion(JNull)
  {
  }
}
