/** `QuizManager`: collecting a batch of distinct questions from the
    generator, and scoring the user's answers against it. */
module QuizManagement {
  import opened Wrappers
  import opened PyStr
  import opened QuestionSchemas
  import opened QuestionGenerator

  /** Generator calls one slot of the batch may spend. */
  const MaxAttemptsPerQuestion: nat := 5

  /** The `question_type` value that selects multiple choice; any other value
      selects fill-in-the-blank. */
  const MultipleChoice := "Multiple Choice"

  /** One entry of `QuizManager.questions`. A fill-in-the-blank entry has no
      options and stores the model's `answer` as its correct answer. */
  datatype QuizQuestion =
    | MCQEntry(question: string, options: seq<string>, correctAnswer: string)
    | FillEntry(question: string, correctAnswer: string)
  {
    /** The `type` field of the entry. */
    function TypeLabel(): string
    {
      if MCQEntry? then "MCQ" else "Fill in the blank"
    }
  }

  /** One entry of `QuizManager.results`. */
  datatype ResultRecord = ResultRecord(
    questionNumber: int,
    question: string,
    questionType: string,
    userAnswer: string,
    correctAnswer: string,
    options: seq<string>,
    isCorrect: bool)

  /** The quiz state the manager keeps between calls. */
  datatype QuizManager = QuizManager(questions: seq<QuizQuestion>, userAnswers: seq<string>, results: seq<ResultRecord>)

  /** An entry of the requested kind that passed that kind's structural check. */
  predicate WellFormed(questionType: string, e: QuizQuestion)
  {
    if questionType == MultipleChoice then e.MCQEntry? && |e.options| == 4 && e.correctAnswer in e.options
    else e.FillEntry? && Contains(e.question, "___")
  }

  /** The entry appended for a multiple-choice question. */
  function MCQEntryOf(q: MCQQuestion): QuizQuestion
  {
    MCQEntry(q.question, q.options, q.correctAnswer)
  }

  /** The entry appended for a fill-in-the-blank question: the model's
      `answer` becomes the entry's correct answer. */
  function FillEntryOf(q: FillBlankQuestion): QuizQuestion
  {
    FillEntry(q.question, q.answer)
  }

  /** One generator call for the requested question type, starting at
      gateway call `start`, with the question already turned into the entry
      the batch would append. */
  function GenerateFor(questionType: string, maxRetries: int, gateway: Gateway, start: nat): (g: Attempted<QuizQuestion, GenError>)
    ensures g.calls <= Budget(maxRetries)
    ensures g.result.Success? ==> WellFormed(questionType, g.result.value)
    ensures questionType == MultipleChoice ==>
              var a := GenerateMCQ(maxRetries, gateway, start);
              && g.calls == a.calls
              && (g.result.Success? <==> a.result.Success?)
              && (g.result.Success? ==>
                    && g.result.value.question == a.result.value.question
                    && g.result.value.options == a.result.value.options
                    && g.result.value.correctAnswer == a.result.value.correctAnswer
                    && g.result.value.TypeLabel() == "MCQ")
              && (g.result.Failure? ==> g.result.error == a.result.error)
    ensures questionType != MultipleChoice ==>
              var a := GenerateFillBlank(maxRetries, gateway, start);
              && g.calls == a.calls
              && (g.result.Success? <==> a.result.Success?)
              && (g.result.Success? ==>
                    && g.result.value.question == a.result.value.question
                    && g.result.value.correctAnswer == a.result.value.answer
                    && g.result.value.TypeLabel() == "Fill in the blank")
              && (g.result.Failure? ==> g.result.error == a.result.error)
  {
    if questionType == MultipleChoice then
      var a := GenerateMCQ(maxRetries, gateway, start);
      Attempted(a.result.Map(MCQEntryOf), a.calls)
    else
      var a := GenerateFillBlank(maxRetries, gateway, start);
      Attempted(a.result.Map(FillEntryOf), a.calls)
  }

  /** The generator service as the collector sees it: the outcome of a call
      that starts at a given gateway call number. */
  type Generator = nat -> Attempted<QuizQuestion, GenError>

  /** The generator `generate_questions` uses for `questionType`. */
  function GeneratorFor(questionType: string, maxRetries: int, gateway: Gateway): Generator
  {
    (start: nat) => GenerateFor(questionType, maxRetries, gateway, start)
  }

  /** Every question the generator returns is of the requested kind and valid. */
  ghost predicate Sound(questionType: string, gen: Generator)
  {
    forall start: nat :: gen(start).result.Success? ==> WellFormed(questionType, gen(start).result.value)
  }

  lemma GeneratorForSound(questionType: string, maxRetries: int, gateway: Gateway)
    ensures Sound(questionType, GeneratorFor(questionType, maxRetries, gateway))
  {
    forall start: nat
      ensures GeneratorFor(questionType, maxRetries, gateway)(start) == GenerateFor(questionType, maxRetries, gateway, start)
    {
    }
  }

  /** `e` is the entry of some question the generator returned. */
  ghost predicate Produced(gen: Generator, e: QuizQuestion)
  {
    exists start: nat :: gen(start).result == Success(e)
  }

  /** Every entry of `batch` from index `lo` on is one the generator returned. */
  ghost predicate ProducedFrom(gen: Generator, batch: seq<QuizQuestion>, lo: nat)
  {
    forall k :: lo <= k < |batch| ==> Produced(gen, batch[k])
  }

  /** The collector's running state: accepted entries, the normalised texts
      seen so far, and how many gateway and generator calls were made. */
  datatype Progress = Progress(batch: seq<QuizQuestion>, seen: set<string>, gatewayCalls: nat, generatorCalls: nat)

  /** How a slot ended: with a question whose key was new, returned by the
      generator call that started at gateway call `at`; with every attempt
      spent on duplicates; or with a generator exception. */
  datatype SlotEnd = Accepted(question: QuizQuestion, at: nat) | NoUnique | Raised(error: GenError)

  /** A slot's end and the call counters after it. */
  datatype SlotOutcome = SlotOutcome(end: SlotEnd, gatewayCalls: nat, generatorCalls: nat)

  datatype BatchEnd = Completed | StoppedEarly | Aborted(error: GenError)
  datatype BatchOutcome = BatchOutcome(p: Progress, end: BatchEnd)

  /** How question texts are compared for duplicates; `generate_questions`
      uses `strip().lower()`. */
  type Key = string -> string

  /** The duplicate key of every entry in `batch`. */
  function Keys(batch: seq<QuizQuestion>, key: Key): set<string>
  {
    set e | e in batch :: key(e.question)
  }

  predicate DistinctKeys(batch: seq<QuizQuestion>, key: Key)
  {
    forall i, j :: 0 <= i < j < |batch| ==> key(batch[i].question) != key(batch[j].question)
  }

  /** What the collector keeps true of its state: `seen` holds exactly the
      keys of the accepted entries, and no two entries share a key. */
  predicate Consistent(batch: seq<QuizQuestion>, seen: set<string>, key: Key)
  {
    seen == Keys(batch, key) && DistinctKeys(batch, key)
  }

  lemma KeysAppend(batch: seq<QuizQuestion>, key: Key, e: QuizQuestion)
    ensures Keys(batch + [e], key) == Keys(batch, key) + {key(e.question)}
  {
    var b := batch + [e];
    forall x | x in b
      ensures x in batch || x == e
    {
    }
  }

  lemma DistinctAppend(batch: seq<QuizQuestion>, key: Key, e: QuizQuestion)
    requires DistinctKeys(batch, key)
    requires key(e.question) !in Keys(batch, key)
    ensures DistinctKeys(batch + [e], key)
  {
    var b := batch + [e];
    forall i, j | 0 <= i < j < |b|
      ensures key(b[i].question) != key(b[j].question)
    {
      if j == |batch| {
        assert b[i] in batch;
      }
    }
  }

  /** Accepting an entry whose key is new keeps the collector's state consistent. */
  lemma AppendKeepsConsistent(batch: seq<QuizQuestion>, seen: set<string>, key: Key, e: QuizQuestion)
    requires key(e.question) !in seen
    ensures Consistent(batch, seen, key) ==> Consistent(batch + [e], seen + {key(e.question)}, key)
  {
    if Consistent(batch, seen, key) {
      KeysAppend(batch, key, e);
      DistinctAppend(batch, key, e);
    }
  }

  /** One slot of `generate_questions`, after `attempts` of its generator
      calls, given the keys seen so far and the call counters: a duplicate
      costs an attempt like any other call, a failure raises, and the slot
      gives up after `MaxAttemptsPerQuestion` calls. */
  function FillSlot(gen: Generator, key: Key, seen: set<string>, gatewayCalls: nat, generatorCalls: nat, attempts: nat): SlotOutcome
    requires attempts <= MaxAttemptsPerQuestion
    decreases MaxAttemptsPerQuestion - attempts
  {
    if attempts == MaxAttemptsPerQuestion then SlotOutcome(NoUnique, gatewayCalls, generatorCalls)
    else
      var g := gen(gatewayCalls);
      match g.result
      case Failure(e) => SlotOutcome(Raised(e), gatewayCalls + g.calls, generatorCalls + 1)
      case Success(q) =>
        if key(q.question) in seen then FillSlot(gen, key, seen, gatewayCalls + g.calls, generatorCalls + 1, attempts + 1)
        else SlotOutcome(Accepted(q, gatewayCalls), gatewayCalls + g.calls, generatorCalls + 1)
  }

  /** A slot makes at most the generator calls it has left, uses all of them
      when it gives up and at least one otherwise, and never lowers the
      gateway count. */
  lemma {:induction false} FillSlotCalls(gen: Generator, key: Key, seen: set<string>, gatewayCalls: nat, generatorCalls: nat, attempts: nat, s: SlotOutcome)
    requires attempts <= MaxAttemptsPerQuestion
    requires s == FillSlot(gen, key, seen, gatewayCalls, generatorCalls, attempts)
    ensures generatorCalls <= s.generatorCalls <= generatorCalls + (MaxAttemptsPerQuestion - attempts)
    ensures gatewayCalls <= s.gatewayCalls
    ensures s.end.NoUnique? ==> s.generatorCalls == generatorCalls + (MaxAttemptsPerQuestion - attempts)
    ensures !s.end.NoUnique? ==> s.generatorCalls > generatorCalls
    decreases MaxAttemptsPerQuestion - attempts
  {
    if attempts < MaxAttemptsPerQuestion {
      var g := gen(gatewayCalls);
      if g.result.Success? && key(g.result.value.question) in seen {
        FillSlotCalls(gen, key, seen, gatewayCalls + g.calls, generatorCalls + 1, attempts + 1, s);
      }
    }
  }

  /** The `n` generator calls starting at gateway call `from` all returned a
      question whose key was already seen, and the next call starts at `to`. */
  ghost predicate DuplicateRun(gen: Generator, key: Key, seen: set<string>, from: nat, to: nat, n: nat)
    decreases n
  {
    if n == 0 then from == to
    else
      var g := gen(from);
      && g.result.Success?
      && key(g.result.value.question) in seen
      && DuplicateRun(gen, key, seen, from + g.calls, to, n - 1)
  }

  /** A slot accepts only a question its own last generator call returned:
      that call starts at `at`, every earlier call of the slot returned a
      duplicate, and the accepted question's key had not been seen. */
  lemma {:induction false} FillSlotAccepts(gen: Generator, key: Key, seen: set<string>, gatewayCalls: nat, generatorCalls: nat, attempts: nat, s: SlotOutcome)
    requires attempts <= MaxAttemptsPerQuestion
    requires s == FillSlot(gen, key, seen, gatewayCalls, generatorCalls, attempts)
    ensures s.end.Accepted? ==>
              && gatewayCalls <= s.end.at
              && gen(s.end.at).result == Success(s.end.question)
              && key(s.end.question.question) !in seen
              && s.gatewayCalls == s.end.at + gen(s.end.at).calls
              && generatorCalls < s.generatorCalls
              && DuplicateRun(gen, key, seen, gatewayCalls, s.end.at, s.generatorCalls - generatorCalls - 1)
    decreases MaxAttemptsPerQuestion - attempts
  {
    if attempts < MaxAttemptsPerQuestion {
      var g := gen(gatewayCalls);
      if g.result.Success? && key(g.result.value.question) in seen {
        FillSlotAccepts(gen, key, seen, gatewayCalls + g.calls, generatorCalls + 1, attempts + 1, s);
      }
    }
  }

  /** One generator call of a slot, as `FillSlot` takes it. */
  lemma FillSlotStep(gen: Generator, key: Key, seen: set<string>, gatewayCalls: nat, generatorCalls: nat, attempts: nat)
    requires attempts < MaxAttemptsPerQuestion
    ensures var g := gen(gatewayCalls);
            var s := FillSlot(gen, key, seen, gatewayCalls, generatorCalls, attempts);
            && (g.result.Failure? ==> s == SlotOutcome(Raised(g.result.error), gatewayCalls + g.calls, generatorCalls + 1))
            && (g.result.Success? && key(g.result.value.question) in seen ==>
                  s == FillSlot(gen, key, seen, gatewayCalls + g.calls, generatorCalls + 1, attempts + 1))
            && (g.result.Success? && key(g.result.value.question) !in seen ==>
                  s == SlotOutcome(Accepted(g.result.value, gatewayCalls), gatewayCalls + g.calls, generatorCalls + 1))
  {
  }

  /** The state after a slot: an accepted question is appended to the batch
      and its key added to `seen`; either way the counters move on. */
  function AfterSlot(p: Progress, key: Key, s: SlotOutcome): Progress
  {
    match s.end
    case Accepted(q, _) => Progress(p.batch + [q], p.seen + {key(q.question)}, s.gatewayCalls, s.generatorCalls)
    case _ => Progress(p.batch, p.seen, s.gatewayCalls, s.generatorCalls)
  }

  /** The first slot of the remaining ones. */
  function NextSlot(gen: Generator, key: Key, p: Progress): SlotOutcome
  {
    FillSlot(gen, key, p.seen, p.gatewayCalls, p.generatorCalls, 0)
  }

  /** The remaining `slotsLeft` slots: a slot without a unique question ends
      the batch, and a raised error aborts it. */
  function CollectFrom(gen: Generator, key: Key, p: Progress, slotsLeft: nat): BatchOutcome
    decreases slotsLeft
  {
    if slotsLeft == 0 then BatchOutcome(p, Completed)
    else
      var s := NextSlot(gen, key, p);
      var next := AfterSlot(p, key, s);
      match s.end
      case Accepted(_, _) => CollectFrom(gen, key, next, slotsLeft - 1)
      case NoUnique => BatchOutcome(next, StoppedEarly)
      case Raised(e) => BatchOutcome(next, Aborted(e))
  }

  /** One slot of `CollectFrom`: an accepted question moves on to the next
      slot, anything else ends the batch. */
  lemma CollectStep(gen: Generator, key: Key, p: Progress, slotsLeft: nat, b: BatchOutcome, s: SlotOutcome, next: Progress)
    requires slotsLeft > 0
    requires b == CollectFrom(gen, key, p, slotsLeft)
    requires s == NextSlot(gen, key, p) && next == AfterSlot(p, key, s)
    ensures s.end.Accepted? ==> b == CollectFrom(gen, key, next, slotsLeft - 1)
    ensures s.end.NoUnique? ==> b == BatchOutcome(next, StoppedEarly)
    ensures s.end.Raised? ==> b == BatchOutcome(next, Aborted(s.end.error))
  {
  }

  /** The batch only grows, by at most one entry per remaining slot, keeps
      what it had, and is complete exactly when every slot accepted one. */
  lemma {:induction false} CollectFromGrows(gen: Generator, key: Key, p: Progress, slotsLeft: nat, b: BatchOutcome)
    requires b == CollectFrom(gen, key, p, slotsLeft)
    ensures |p.batch| <= |b.p.batch| <= |p.batch| + slotsLeft
    ensures p.batch <= b.p.batch
    ensures b.end.Completed? <==> |b.p.batch| == |p.batch| + slotsLeft
    decreases slotsLeft
  {
    if slotsLeft > 0 {
      var s := NextSlot(gen, key, p);
      var next := AfterSlot(p, key, s);
      CollectStep(gen, key, p, slotsLeft, b, s, next);
      if s.end.Accepted? {
        CollectFromGrows(gen, key, next, slotsLeft - 1, b);
        assert p.batch <= next.batch;
      }
    }
  }

  /** Each remaining slot costs at most `MaxAttemptsPerQuestion` generator calls. */
  lemma {:induction false} CollectFromCalls(gen: Generator, key: Key, p: Progress, slotsLeft: nat, b: BatchOutcome)
    requires b == CollectFrom(gen, key, p, slotsLeft)
    ensures p.generatorCalls <= b.p.generatorCalls <= p.generatorCalls + MaxAttemptsPerQuestion * slotsLeft
    decreases slotsLeft
  {
    if slotsLeft > 0 {
      var s := NextSlot(gen, key, p);
      var next := AfterSlot(p, key, s);
      CollectStep(gen, key, p, slotsLeft, b, s, next);
      FillSlotCalls(gen, key, p.seen, p.gatewayCalls, p.generatorCalls, 0, s);
      if s.end.Accepted? {
        CollectFromCalls(gen, key, next, slotsLeft - 1, b);
      }
    }
  }

  /** Every entry the remaining slots add is one the generator returned. */
  lemma {:induction false} CollectFromProduced(gen: Generator, key: Key, p: Progress, slotsLeft: nat, b: BatchOutcome)
    requires b == CollectFrom(gen, key, p, slotsLeft)
    ensures ProducedFrom(gen, b.p.batch, |p.batch|)
    decreases slotsLeft
  {
    if slotsLeft > 0 {
      var s := NextSlot(gen, key, p);
      var next := AfterSlot(p, key, s);
      CollectStep(gen, key, p, slotsLeft, b, s, next);
      if s.end.Accepted? {
        FillSlotAccepts(gen, key, p.seen, p.gatewayCalls, p.generatorCalls, 0, s);
        ProducedAt(gen, s.end.at, s.end.question);
        CollectFromProduced(gen, key, next, slotsLeft - 1, b);
        CollectFromGrows(gen, key, next, slotsLeft - 1, b);
        ProducedSuffix(gen, p.batch, next.batch, b.p.batch);
      }
    }
  }

  /** The entry of a question some generator call returned is produced. */
  lemma ProducedAt(gen: Generator, at: nat, q: QuizQuestion)
    requires gen(at).result == Success(q)
    ensures Produced(gen, q)
  {
  }

  /** The entry `b` adds to `a`, followed by entries produced past `b` in `c`,
      makes every entry past `a` in `c` a produced one. */
  lemma ProducedSuffix(gen: Generator, a: seq<QuizQuestion>, b: seq<QuizQuestion>, c: seq<QuizQuestion>)
    requires |b| == |a| + 1 && b <= c
    requires Produced(gen, b[|a|])
    requires ProducedFrom(gen, c, |b|)
    ensures ProducedFrom(gen, c, |a|)
  {
    assert c[|a|] == b[|a|];
  }

  /** The remaining slots keep the collector's state consistent. */
  lemma {:induction false} CollectFromConsistent(gen: Generator, key: Key, p: Progress, slotsLeft: nat, b: BatchOutcome)
    requires b == CollectFrom(gen, key, p, slotsLeft)
    requires Consistent(p.batch, p.seen, key)
    ensures Consistent(b.p.batch, b.p.seen, key)
    decreases slotsLeft
  {
    if slotsLeft > 0 {
      var s := NextSlot(gen, key, p);
      var next := AfterSlot(p, key, s);
      CollectStep(gen, key, p, slotsLeft, b, s, next);
      if s.end.Accepted? {
        FillSlotAccepts(gen, key, p.seen, p.gatewayCalls, p.generatorCalls, 0, s);
        AppendKeepsConsistent(p.batch, p.seen, key, s.end.question);
        CollectFromConsistent(gen, key, next, slotsLeft - 1, b);
      }
    }
  }

  /** `range(num_questions)`: a negative count runs no slot. */
  function Slots(numQuestions: int): nat
  {
    if numQuestions < 0 then 0 else numQuestions
  }

  /** The batch `generate_questions` collects from a fresh state. */
  function Collect(gen: Generator, key: Key, numQuestions: int): BatchOutcome
  {
    CollectFrom(gen, key, Progress([], {}, 0, 0), Slots(numQuestions))
  }

  /** The collected batch is never longer than requested and is complete
      exactly when the batch ran to the end; its entries are pairwise
      distinct by key, with `seen` holding exactly their keys; every entry is
      one the generator returned, and so valid when the generator only
      returns valid questions; at most `MaxAttemptsPerQuestion` generator
      calls are made per slot. */
  lemma CollectFacts(questionType: string, gen: Generator, key: Key, numQuestions: int)
    ensures var b := Collect(gen, key, numQuestions);
            && |b.p.batch| <= Slots(numQuestions)
            && (b.end.Completed? <==> |b.p.batch| == Slots(numQuestions))
            && Consistent(b.p.batch, b.p.seen, key)
            && (forall e :: e in b.p.batch ==> Produced(gen, e))
            && (Sound(questionType, gen) ==> forall e :: e in b.p.batch ==> WellFormed(questionType, e))
            && b.p.generatorCalls <= MaxAttemptsPerQuestion * Slots(numQuestions)
  {
    var p0 := Progress([], {}, 0, 0);
    var b := Collect(gen, key, numQuestions);
    CollectFromGrows(gen, key, p0, Slots(numQuestions), b);
    CollectFromCalls(gen, key, p0, Slots(numQuestions), b);
    CollectFromProduced(gen, key, p0, Slots(numQuestions), b);
    assert Consistent(p0.batch, p0.seen, key);
    CollectFromConsistent(gen, key, p0, Slots(numQuestions), b);
    forall e | e in b.p.batch
      ensures Produced(gen, e)
    {
      var k :| 0 <= k < |b.p.batch| && b.p.batch[k] == e;
    }
  }

  /** The boolean `generate_questions` returns: no exception escaped the
      batch loop and at least one question was accepted. */
  predicate Verdict(b: BatchOutcome)
  {
    !b.end.Aborted? && |b.p.batch| > 0
  }

  /** The inner loop of `generate_questions`: up to `MaxAttemptsPerQuestion`
      generator calls, skipping duplicates, until a question with a new key
      arrives or the generator raises. */
  method TryFillSlot(gen: Generator, key: Key, seen: set<string>, gatewayCalls0: nat, generatorCalls0: nat)
    returns (s: SlotOutcome)
    ensures s == FillSlot(gen, key, seen, gatewayCalls0, generatorCalls0, 0)
  {
    var gatewayCalls: nat, generatorCalls: nat := gatewayCalls0, generatorCalls0;
    var attempts := 0;
    while attempts < MaxAttemptsPerQuestion
      invariant 0 <= attempts <= MaxAttemptsPerQuestion
      invariant FillSlot(gen, key, seen, gatewayCalls, generatorCalls, attempts)
                == FillSlot(gen, key, seen, gatewayCalls0, generatorCalls0, 0)
    {
      FillSlotStep(gen, key, seen, gatewayCalls, generatorCalls, attempts);
      var at := gatewayCalls;
      var g := gen(gatewayCalls);
      attempts := attempts + 1;
      gatewayCalls := gatewayCalls + g.calls;
      generatorCalls := generatorCalls + 1;
      if g.result.Failure? {
        return SlotOutcome(Raised(g.result.error), gatewayCalls, generatorCalls);
      }
      if key(g.result.value.question) in seen {
        continue;
      }
      return SlotOutcome(Accepted(g.result.value, at), gatewayCalls, generatorCalls);
    }
    return SlotOutcome(NoUnique, gatewayCalls, generatorCalls);
  }

  /** The batch loop of `generate_questions`, with the generator call and the
      duplicate key passed in. The previous quiz is discarded: answers and
      results are emptied and the questions are exactly the collected batch,
      whatever `m` held. An exception ends the call with `false` but leaves
      the questions appended before it. */
  method CollectQuestions(m: QuizManager, numQuestions: int, gen: Generator, key: Key)
    returns (ok: bool, m': QuizManager, generatorCalls: nat, gatewayCalls: nat)
    ensures m'.userAnswers == [] && m'.results == []
    ensures var b := Collect(gen, key, numQuestions);
            && m'.questions == b.p.batch
            && ok == Verdict(b)
            && generatorCalls == b.p.generatorCalls
            && gatewayCalls == b.p.gatewayCalls
  {
    ghost var total := Slots(numQuestions);
    ghost var target := Collect(gen, key, numQuestions);
    var questions: seq<QuizQuestion> := [];
    var seen: set<string> := {};
    generatorCalls, gatewayCalls := 0, 0;
    var slot := 0;
    assert Progress(questions, seen, gatewayCalls, generatorCalls) == Progress([], {}, 0, 0);
    while slot < numQuestions
      invariant 0 <= slot <= total
      invariant CollectFrom(gen, key, Progress(questions, seen, gatewayCalls, generatorCalls), total - slot) == target
    {
      ghost var before := Progress(questions, seen, gatewayCalls, generatorCalls);
      var s := TryFillSlot(gen, key, seen, gatewayCalls, generatorCalls);
      CollectStep(gen, key, before, total - slot, target, s, AfterSlot(before, key, s));
      gatewayCalls, generatorCalls := s.gatewayCalls, s.generatorCalls;
      if s.end.Raised? {
        ok := false;
        m' := QuizManager(questions, [], []);
        return;
      }
      if s.end.NoUnique? {
        break;
      }
      seen := seen + {key(s.end.question.question)};
      questions := questions + [s.end.question];
      assert Progress(questions, seen, gatewayCalls, generatorCalls) == AfterSlot(before, key, s);
      slot := slot + 1;
    }
    ok := |questions| > 0;
    m' := QuizManager(questions, [], []);
  }

  /** `generate_questions`: the batch loop calling the generator for
      `questionType`, with `strip().lower()` as the duplicate key, so no two
      accepted questions differ only in case or in surrounding whitespace. */
  method GenerateQuestions(m: QuizManager, questionType: string, numQuestions: int, maxRetries: int, gateway: Gateway)
    returns (ok: bool, m': QuizManager, generatorCalls: nat, gatewayCalls: nat)
    ensures m'.userAnswers == [] && m'.results == []
    ensures |m'.questions| <= Slots(numQuestions)
    ensures forall i, j :: 0 <= i < j < |m'.questions| ==> Normalize(m'.questions[i].question) != Normalize(m'.questions[j].question)
    ensures forall e :: e in m'.questions ==> WellFormed(questionType, e)
    ensures generatorCalls <= MaxAttemptsPerQuestion * Slots(numQuestions)
    ensures var b := Collect(GeneratorFor(questionType, maxRetries, gateway), Normalize, numQuestions);
            && m'.questions == b.p.batch
            && ok == Verdict(b)
            && generatorCalls == b.p.generatorCalls
            && gatewayCalls == b.p.gatewayCalls
  {
    ok, m', generatorCalls, gatewayCalls := CollectQuestions(m, numQuestions, GeneratorFor(questionType, maxRetries, gateway), Normalize);
    GeneratorForSound(questionType, maxRetries, gateway);
    CollectFacts(questionType, GeneratorFor(questionType, maxRetries, gateway), Normalize, numQuestions);
  }

  /** Whether `userAnswer` is marked correct: exact equality for multiple
      choice, equality after `strip().lower()` of both sides otherwise. */
  function IsCorrect(q: QuizQuestion, userAnswer: string): bool
  {
    match q
    case MCQEntry(_, _, answer) => userAnswer == answer
    case FillEntry(_, answer) => Normalize(userAnswer) == Normalize(answer)
  }

  /** The record for question number `number`. */
  function Grade(number: int, q: QuizQuestion, userAnswer: string): ResultRecord
  {
    ResultRecord(number, q.question, q.TypeLabel(), userAnswer, q.correctAnswer,
                 if q.MCQEntry? then q.options else [], IsCorrect(q, userAnswer))
  }

  function Min(a: int, b: int): int
  {
    if a <= b then a else b
  }

  /** `evaluate_quiz`: questions and answers walked together as `zip` does,
      one record per pair, numbered from 1; earlier results are replaced. */
  method EvaluateQuiz(m: QuizManager) returns (m': QuizManager)
    ensures m'.questions == m.questions && m'.userAnswers == m.userAnswers
    ensures |m'.results| == Min(|m.questions|, |m.userAnswers|)
    ensures forall i :: 0 <= i < |m'.results| ==>
              var r, q, answer := m'.results[i], m.questions[i], m.userAnswers[i];
              && r.questionNumber == i + 1
              && r.question == q.question
              && r.questionType == q.TypeLabel()
              && r.userAnswer == answer
              && r.correctAnswer == q.correctAnswer
              && (q.MCQEntry? ==> r.options == q.options && (r.isCorrect <==> answer == q.correctAnswer))
              && (q.FillEntry? ==> r.options == [] && (r.isCorrect <==> Normalize(answer) == Normalize(q.correctAnswer)))
  {
    var results: seq<ResultRecord> := [];
    var i := 0;
    while i < |m.questions| && i < |m.userAnswers|
      invariant 0 <= i <= Min(|m.questions|, |m.userAnswers|)
      invariant |results| == i
      invariant forall k :: 0 <= k < i ==> results[k] == Grade(k + 1, m.questions[k], m.userAnswers[k])
    {
      results := results + [Grade(i + 1, m.questions[i], m.userAnswers[i])];
      i := i + 1;
    }
    m' := m.(results := results);
  }
}
