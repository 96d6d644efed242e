/** Concrete consequences of the batch collector and the scoring rules:
    what a generator that keeps repeating itself, one that never repeats,
    and one that raises part-way through do to a batch, and how answers are
    marked. */
module QuizScenarios {
  import opened Wrappers
  import opened PyStr
  import opened QuestionSchemas
  import opened QuestionGenerator
  import opened QuizManagement

  /** When every generator call returns a question whose key was already
      seen, a slot spends all of its remaining attempts and ends without a
      question. */
  lemma {:induction false} DuplicatesExhaustSlot(gen: Generator, key: Key, seen: set<string>, gatewayCalls: nat, generatorCalls: nat, attempts: nat)
    requires attempts <= MaxAttemptsPerQuestion
    requires forall start: nat :: gen(start).result.Success? && key(gen(start).result.value.question) in seen
    ensures var s := FillSlot(gen, key, seen, gatewayCalls, generatorCalls, attempts);
            s.end == NoUnique && s.generatorCalls == generatorCalls + (MaxAttemptsPerQuestion - attempts)
    decreases MaxAttemptsPerQuestion - attempts
  {
    if attempts < MaxAttemptsPerQuestion {
      var g := gen(gatewayCalls);
      FillSlotStep(gen, key, seen, gatewayCalls, generatorCalls, attempts);
      DuplicatesExhaustSlot(gen, key, seen, gatewayCalls + g.calls, generatorCalls + 1, attempts + 1);
    }
  }

  /** A generator whose every call returns a question with the same text
      key (the options and answers may differ) fills the first slot with its
      first question and then spends the second slot's five calls on
      duplicates, so a request for two or more questions ends early with that
      one question after exactly six generator calls, and still counts as a
      success. */
  lemma ConstantGeneratorGivesOneQuestion(gen: Generator, key: Key, q: QuizQuestion, numQuestions: int)
    requires gen(0).result == Success(q)
    requires forall start: nat :: gen(start).result.Success? && key(gen(start).result.value.question) == key(q.question)
    requires numQuestions >= 2
    ensures var b := Collect(gen, key, numQuestions);
            && b.p.batch == [q]
            && b.end == StoppedEarly
            && b.p.generatorCalls == MaxAttemptsPerQuestion + 1
            && Verdict(b)
  {
    var b := Collect(gen, key, numQuestions);
    var n := Slots(numQuestions);
    var p0 := Progress([], {}, 0, 0);
    FillSlotStep(gen, key, {}, 0, 0, 0);
    var s1 := NextSlot(gen, key, p0);
    var p1 := AfterSlot(p0, key, s1);
    CollectStep(gen, key, p0, n, b, s1, p1);
    assert p1 == Progress([q], {key(q.question)}, gen(0).calls, 1);
    DuplicatesExhaustSlot(gen, key, p1.seen, p1.gatewayCalls, 1, 0);
    var s2 := NextSlot(gen, key, p1);
    CollectStep(gen, key, p1, n - 1, b, s2, AfterSlot(p1, key, s2));
  }

  /** A gateway that always answers with the same valid multiple-choice
      reply makes every `generate_mcq` call succeed with that question after
      a single gateway call. */
  lemma ConstantReplyGenerator(maxRetries: int, gateway: Gateway, r: Reply, q: MCQQuestion)
    requires maxRetries >= 1
    requires forall i: nat :: gateway(i) == r
    requires ParseMCQ(r) == Some(q) && ValidMCQ(q)
    ensures forall start: nat :: GeneratorFor(MultipleChoice, maxRetries, gateway)(start) == Attempted(Success(MCQEntryOf(q)), 1)
  {
    forall start: nat
      ensures GeneratorFor(MultipleChoice, maxRetries, gateway)(start) == Attempted(Success(MCQEntryOf(q)), 1)
    {
      assert Retry(ParseMCQ, maxRetries, gateway, start) == Attempted(Success(q), 1);
    }
  }

  /** `generate_questions` for multiple choice, against a gateway that keeps
      giving the same valid question: two or more requested questions give a
      quiz of that one question, reported as a success, after six generator
      calls and six gateway calls. */
  lemma ConstantGatewayGivesOneQuestion(maxRetries: int, gateway: Gateway, r: Reply, q: MCQQuestion, numQuestions: int)
    requires maxRetries >= 1
    requires forall i: nat :: gateway(i) == r
    requires ParseMCQ(r) == Some(q) && ValidMCQ(q)
    requires numQuestions >= 2
    ensures var b := Collect(GeneratorFor(MultipleChoice, maxRetries, gateway), Normalize, numQuestions);
            && b.p.batch == [MCQEntry(q.question, q.options, q.correctAnswer)]
            && b.p.generatorCalls == 6
            && b.p.gatewayCalls == 6
            && Verdict(b)
  {
    var gen := GeneratorFor(MultipleChoice, maxRetries, gateway);
    ConstantReplyGenerator(maxRetries, gateway, r, q);
    ConstantGeneratorGivesOneQuestion(gen, Normalize, MCQEntryOf(q), numQuestions);
    GatewayCallsOfUnitGenerator(gen, Normalize, Progress([], {}, 0, 0), Slots(numQuestions), Collect(gen, Normalize, numQuestions));
  }

  /** With a generator whose every call consumes exactly one gateway call,
      the two counters advance together. */
  lemma {:induction false} GatewayCallsOfUnitGenerator(gen: Generator, key: Key, p: Progress, slotsLeft: nat, b: BatchOutcome)
    requires forall start: nat :: gen(start).calls == 1
    requires p.gatewayCalls == p.generatorCalls
    requires b == CollectFrom(gen, key, p, slotsLeft)
    ensures b.p.gatewayCalls == b.p.generatorCalls
    decreases slotsLeft
  {
    if slotsLeft > 0 {
      var s := NextSlot(gen, key, p);
      var next := AfterSlot(p, key, s);
      CollectStep(gen, key, p, slotsLeft, b, s, next);
      UnitSlotCounters(gen, key, p.seen, p.gatewayCalls, p.generatorCalls, 0);
      if s.end.Accepted? {
        GatewayCallsOfUnitGenerator(gen, key, next, slotsLeft - 1, b);
      }
    }
  }

  lemma {:induction false} UnitSlotCounters(gen: Generator, key: Key, seen: set<string>, gatewayCalls: nat, generatorCalls: nat, attempts: nat)
    requires attempts <= MaxAttemptsPerQuestion
    requires forall start: nat :: gen(start).calls == 1
    requires gatewayCalls == generatorCalls
    ensures var s := FillSlot(gen, key, seen, gatewayCalls, generatorCalls, attempts);
            s.gatewayCalls == s.generatorCalls
    decreases MaxAttemptsPerQuestion - attempts
  {
    if attempts < MaxAttemptsPerQuestion {
      var g := gen(gatewayCalls);
      FillSlotStep(gen, key, seen, gatewayCalls, generatorCalls, attempts);
      UnitSlotCounters(gen, key, seen, gatewayCalls + g.calls, generatorCalls + 1, attempts + 1);
    }
  }

  /** A generator whose successive calls return questions with pairwise
      distinct keys has every one of them accepted, in the order returned,
      one generator call per slot. */
  lemma DistinctQuestionsAllAccepted(gen: Generator, key: Key, qs: seq<QuizQuestion>)
    requires forall i :: 0 <= i < |qs| ==> gen(i) == Attempted(Success(qs[i]), 1)
    requires DistinctKeys(qs, key)
    ensures var b := Collect(gen, key, |qs|);
            && b.p.batch == qs
            && b.end == Completed
            && b.p.generatorCalls == |qs|
            && b.p.gatewayCalls == |qs|
  {
    assert qs[..0] == [];
    assert Keys([], key) == {};
    AcceptInOrder(gen, key, qs, 0, Collect(gen, key, |qs|));
    assert qs[..|qs|] == qs;
  }

  lemma {:induction false} AcceptInOrder(gen: Generator, key: Key, qs: seq<QuizQuestion>, j: nat, b: BatchOutcome)
    requires j <= |qs|
    requires forall i :: 0 <= i < |qs| ==> gen(i) == Attempted(Success(qs[i]), 1)
    requires DistinctKeys(qs, key)
    requires b == CollectFrom(gen, key, Progress(qs[..j], Keys(qs[..j], key), j, j), |qs| - j)
    ensures b == BatchOutcome(Progress(qs, Keys(qs[..|qs|], key), |qs|, |qs|), Completed)
    decreases |qs| - j
  {
    var p := Progress(qs[..j], Keys(qs[..j], key), j, j);
    if j == |qs| {
      assert qs[..j] == qs;
    } else {
      assert key(qs[j].question) !in p.seen by {
        forall e | e in qs[..j]
          ensures key(e.question) != key(qs[j].question)
        {
          var i :| 0 <= i < j && qs[..j][i] == e;
        }
      }
      FillSlotStep(gen, key, p.seen, j, j, 0);
      var s := NextSlot(gen, key, p);
      assert s == SlotOutcome(Accepted(qs[j], j), j + 1, j + 1);
      var next := AfterSlot(p, key, s);
      CollectStep(gen, key, p, |qs| - j, b, s, next);
      KeysAppend(qs[..j], key, qs[j]);
      assert qs[..j] + [qs[j]] == qs[..j + 1];
      AcceptInOrder(gen, key, qs, j + 1, b);
    }
  }

  /** An exception in the second slot, after the first slot accepted a
      question, makes `generate_questions` report failure although the
      question stays in the batch. */
  lemma ExceptionAfterAcceptedQuestion(gen: Generator, key: Key, q: QuizQuestion, e: GenError, numQuestions: int)
    requires numQuestions >= 2
    requires gen(0).result == Success(q)
    requires gen(gen(0).calls).result == Failure(e)
    ensures var b := Collect(gen, key, numQuestions);
            && b.p.batch == [q]
            && b.end == Aborted(e)
            && !Verdict(b)
  {
    var b := Collect(gen, key, numQuestions);
    var n := Slots(numQuestions);
    var p0 := Progress([], {}, 0, 0);
    FillSlotStep(gen, key, {}, 0, 0, 0);
    var s1 := NextSlot(gen, key, p0);
    var p1 := AfterSlot(p0, key, s1);
    CollectStep(gen, key, p0, n, b, s1, p1);
    FillSlotStep(gen, key, p1.seen, p1.gatewayCalls, p1.generatorCalls, 0);
    var s2 := NextSlot(gen, key, p1);
    CollectStep(gen, key, p1, n - 1, b, s2, AfterSlot(p1, key, s2));
  }

  /** A slot that finds no unique question ends the batch: no later slot
      makes a generator call, and the batch is what it was before the slot. */
  lemma NoUniqueStopsBatch(gen: Generator, key: Key, p: Progress, slotsLeft: nat)
    requires slotsLeft > 0
    requires NextSlot(gen, key, p).end.NoUnique?
    ensures var b := CollectFrom(gen, key, p, slotsLeft);
            && b.end == StoppedEarly
            && b.p.batch == p.batch
            && b.p.generatorCalls == p.generatorCalls + MaxAttemptsPerQuestion
  {
    var s := NextSlot(gen, key, p);
    var b := CollectFrom(gen, key, p, slotsLeft);
    CollectStep(gen, key, p, slotsLeft, b, s, AfterSlot(p, key, s));
    FillSlotCalls(gen, key, p.seen, p.gatewayCalls, p.generatorCalls, 0, s);
  }

  /** Marking a fill-in-the-blank answer ignores surrounding whitespace and
      case: an answer is marked exactly as its normalised form is. */
  lemma {:induction false} FillMarkingIgnoresPaddingAndCase(q: QuizQuestion, answer: string)
    requires q.FillEntry?
    ensures IsCorrect(q, answer) == IsCorrect(q, Normalize(answer))
  {
    NormalizeIdempotent(answer);
  }

  /** A correct answer to a valid multiple-choice question is one of its options. */
  lemma CorrectChoiceIsAnOption(q: QuizQuestion, answer: string)
    requires WellFormed(MultipleChoice, q)
    requires IsCorrect(q, answer)
    ensures answer in q.options
  {
  }

  /** Multiple-choice answers are compared exactly, so a difference in case
      is wrong; fill-in-the-blank answers are compared after trimming and
      lower-casing, so padding and case do not matter. */
  lemma MarkingExamples()
    ensures !IsCorrect(MCQEntry("Capital of France?", ["Paris", "Lyon", "Nice", "Lille"], "Paris"), "paris")
    ensures IsCorrect(FillEntry("___ is the capital of France.", "Paris"), " paris ")
  {
    assert " paris "[1..] == "paris ";
    assert StripStart("paris ") == "paris ";
    assert "paris "[..5] == "paris";
    assert StripEnd("paris") == "paris";
    assert Strip(" paris ") == "paris";
    NoMarginsStripFixed("Paris");
    LowerFacts("paris");
    LowerFacts("Paris");
    assert Lower("paris") == Lower("Paris");
  }
}
