/** Quiz generation: the multiple-choice options of one question
    (`create_options`) and a batch of questions (`generate_quiz`). Both read the
    loaded table, passed here as `table`; the page passes `Solids`. Every random
    draw is a parameter, so the contracts hold of every possible quiz. */
module Quiz {
  import opened Catalog
  import opened Sampling

  /** One generated question: its prompt, the cell it asks for and the option
      strings the radio button offers. */
  datatype Question = Question(text: string, answer: Value, options: seq<string>)

  /** What the random source decides in one pass of generate_quiz's loop: the
      row `solids_df.sample(1)` picks, the kind `random.choice` picks, the
      positions `random.sample` picks among the distractors and the draws of
      `random.shuffle` on the options. */
  datatype Round = Round(row: nat, kind: Kind, picks: seq<nat>, draws: seq<nat>)

  /** How many distractors `random.sample` draws when there are enough. */
  const SampleSize: nat := 3

  /** The other values of the column: those that differ from the correct
      answer, each once, in table order. */
  function Distractors(table: seq<Solid>, kind: Kind, correct: Value): (d: seq<Value>)
    ensures forall i :: 0 <= i < |d| ==> d[i] in Column(table, kind) && d[i] != correct
    ensures NoDup(d)
  {
    UniqueExcluding(Column(table, kind), {correct})
  }

  /** Every other value of the column is a distractor. */
  lemma DistractorsComplete(table: seq<Solid>, kind: Kind, correct: Value, row: nat)
    requires row < |table| && Cell(table[row], kind) != correct
    ensures Cell(table[row], kind) in Distractors(table, kind, correct)
  {
    assert Column(table, kind)[row] == Cell(table[row], kind);
  }

  /** The number of options: three distractors and the answer, or every
      distractor and the answer when there are fewer than three. */
  function OptionCount(table: seq<Solid>, kind: Kind, correct: Value): nat {
    var n := |Distractors(table, kind, correct)|;
    (if n >= SampleSize then SampleSize else n) + 1
  }

  /** The draws are ones the random source can make for this question. */
  predicate ValidChoices(table: seq<Solid>, kind: Kind, correct: Value, picks: seq<nat>, draws: seq<nat>) {
    var n := |Distractors(table, kind, correct)|;
    && (n >= SampleSize ==> IsSample(picks, SampleSize, n))
    && IsShuffleDraws(draws, OptionCount(table, kind, correct))
  }

  /** The distractors that are shown. */
  function Chosen(table: seq<Solid>, kind: Kind, correct: Value, picks: seq<nat>): (c: seq<Value>)
    requires |Distractors(table, kind, correct)| >= SampleSize ==>
               IsSample(picks, SampleSize, |Distractors(table, kind, correct)|)
    ensures |c| + 1 == OptionCount(table, kind, correct)
    ensures forall i :: 0 <= i < |c| ==> c[i] in Column(table, kind) && c[i] != correct
    ensures NoDup(c)
  {
    var d := Distractors(table, kind, correct);
    if |d| >= SampleSize then Sample(d, picks) else d
  }

  /** `[str(opt) for opt in values]`. */
  function Stringify(values: seq<Value>): (r: seq<string>)
    ensures |r| == |values|
    ensures forall i :: 0 <= i < |r| ==> r[i] == Show(values[i])
  {
    seq(|values|, i requires 0 <= i < |values| => Show(values[i]))
  }

  /** Different values of one dtype stay different once printed. */
  lemma StringifyDistinct(values: seq<Value>, t: DType)
    requires NoDup(values)
    requires forall i :: 0 <= i < |values| ==> TypeOf(values[i]) == t
    ensures NoDup(Stringify(values))
  {
    var strs := Stringify(values);
    forall i, j | 0 <= i < j < |strs| ensures strs[i] != strs[j] {
      if strs[i] == strs[j] {
        ShowInjective(values[i], values[j]);
      }
    }
  }

  /** The options `create_options` returns for these draws. */
  function Options(table: seq<Solid>, kind: Kind, correct: Value, picks: seq<nat>, draws: seq<nat>): seq<string>
    requires ValidChoices(table, kind, correct, picks, draws)
  {
    Shuffled(Stringify(Chosen(table, kind, correct, picks) + [correct]), draws)
  }

  /** When the answer comes from the column it is asked about, no option is
      offered twice, so exactly one option is right. */
  lemma OptionsDistinct(table: seq<Solid>, kind: Kind, correct: Value, picks: seq<nat>, draws: seq<nat>)
    requires ValidChoices(table, kind, correct, picks, draws)
    requires TypeOf(correct) == KindType(kind)
    ensures NoDup(Options(table, kind, correct, picks, draws))
  {
    var values := Chosen(table, kind, correct, picks) + [correct];
    forall i | 0 <= i < |values| ensures TypeOf(values[i]) == KindType(kind) {
      if i < |values| - 1 {
        var j :| 0 <= j < |table| && Column(table, kind)[j] == values[i];
      }
    }
    StringifyDistinct(values, KindType(kind));
  }

  /** `create_options(row, q_type, correct_answer)`. */
  method CreateOptions(table: seq<Solid>, kind: Kind, correct: Value, picks: seq<nat>, draws: seq<nat>)
      returns (options: seq<string>)
    requires ValidChoices(table, kind, correct, picks, draws)
    ensures options == Options(table, kind, correct, picks, draws)
    ensures Show(correct) in options
    ensures |options| == if |Distractors(table, kind, correct)| >= SampleSize then SampleSize + 1
                         else |Distractors(table, kind, correct)| + 1
    ensures multiset(options) == multiset(Stringify(Chosen(table, kind, correct, picks) + [correct]))
    ensures TypeOf(correct) == KindType(kind) ==> NoDup(options)
  {
    var distractors := Distractors(table, kind, correct);
    if |distractors| >= SampleSize {
      distractors := Sample(distractors, picks);
    }
    var values := distractors + [correct];
    var strs := Stringify(values);
    var a := new string[|strs|](i requires 0 <= i < |strs| => strs[i]);
    assert a[..] == strs;
    Shuffle(a, draws);
    options := a[..];
    assert strs[|strs| - 1] == Show(correct);
    assert Show(correct) in multiset(strs);
    if TypeOf(correct) == KindType(kind) {
      OptionsDistinct(table, kind, correct, picks, draws);
    }
  }

  /** What a question of kind `kind` asks for, as its prompt words it. */
  function Subject(kind: Kind): (w: string)
    ensures |w| > 0
  {
    match kind
    case Melting => "melting point (°C)"
    case Boiling => "boiling point (°C)"
    case Chemical => "chemical symbol"
    case Atomic => "atomic number"
    case Reserve => "total reserve (world)"
    case ReservePakistan => "reserve in Pakistan"
  }

  /** The prompt of a question of kind `kind` about the solid `name`: a
      question about the kind's column that ends with the name. */
  function Prompt(kind: Kind, name: string): (p: string)
    ensures |p| > 12 + |Subject(kind)| + |name| && p[..12] == "What is the "
    ensures p[12..12 + |Subject(kind)|] == Subject(kind) && p[12] == Subject(kind)[0]
    ensures p[|p| - |name| - 1..] == name + "?"
  {
    "What is the " + Subject(kind) + " of " + name + "?"
  }

  /** The prompt tells which kind of question it is and which solid it asks
      about: the six subjects start with six different letters. */
  lemma PromptInjective(k1: Kind, n1: string, k2: Kind, n2: string)
    requires Prompt(k1, n1) == Prompt(k2, n2)
    ensures k1 == k2 && n1 == n2
  {
    var p := Prompt(k1, n1);
    assert Subject(k1)[0] == p[12] == Subject(k2)[0];
    assert k1 == k2;
    var tail := |p| - |n1| - 1;
    assert n1 == p[tail..|p| - 1] == n2;
  }

  predicate ValidRound(table: seq<Solid>, r: Round) {
    r.row < |table| && ValidChoices(table, r.kind, Cell(table[r.row], r.kind), r.picks, r.draws)
  }

  predicate ValidRounds(table: seq<Solid>, rounds: seq<Round>) {
    forall k :: 0 <= k < |rounds| ==> ValidRound(table, rounds[k])
  }

  /** The question one pass of the loop builds. */
  function QuestionFor(table: seq<Solid>, r: Round): Question
    requires ValidRound(table, r)
  {
    var answer := Cell(table[r.row], r.kind);
    Question(Prompt(r.kind, table[r.row].name), answer, Options(table, r.kind, answer, r.picks, r.draws))
  }

  /** The quiz `generate_quiz` returns for these rounds. */
  function Questions(table: seq<Solid>, rounds: seq<Round>): seq<Question>
    requires ValidRounds(table, rounds)
  {
    seq(|rounds|, k requires 0 <= k < |rounds| => QuestionFor(table, rounds[k]))
  }

  /** The right answer is among the options and no option is repeated. */
  predicate WellFormed(q: Question) {
    Show(q.answer) in q.options && NoDup(q.options)
  }

  /** Every question the loop can build asks for the cell of its row and
      offers the answer once, among options that are all different. */
  lemma QuestionForWellFormed(table: seq<Solid>, r: Round)
    requires ValidRound(table, r)
    ensures QuestionFor(table, r).answer == Cell(table[r.row], r.kind)
    ensures WellFormed(QuestionFor(table, r))
  {
    var answer := Cell(table[r.row], r.kind);
    var values := Chosen(table, r.kind, answer, r.picks) + [answer];
    assert Stringify(values)[|values| - 1] == Show(answer);
    assert Show(answer) in multiset(Stringify(values));
    OptionsDistinct(table, r.kind, answer, r.picks, r.draws);
  }

  /** With the table as it is, no column repeats a value, so every question has
      nine distractors and the branch for fewer than three is never taken. */
  lemma CatalogDistractors(row: nat, kind: Kind)
    requires row < |Solids|
    ensures |Distractors(Solids, kind, Cell(Solids[row], kind))| == |Solids| - 1
    ensures OptionCount(Solids, kind, Cell(Solids[row], kind)) == SampleSize + 1
  {
    var c := Cell(Solids[row], kind);
    ColumnDistinct(kind);
    assert Column(Solids, kind)[row] == c;
    UniqueExcludingLength(Column(Solids, kind), {c}, c);
  }

  /** So on the table the random source makes the same kind of draws for
      every question: three of the nine distractors, then a shuffle of four. */
  lemma CatalogRoundValid(r: Round)
    requires r.row < |Solids|
    ensures ValidRound(Solids, r) <==>
            IsSample(r.picks, SampleSize, |Solids| - 1) && IsShuffleDraws(r.draws, SampleSize + 1)
  {
    CatalogDistractors(r.row, r.kind);
  }

  /** So every question on the table has four options. */
  lemma CatalogFourOptions(r: Round)
    requires ValidRound(Solids, r)
    ensures |QuestionFor(Solids, r).options| == SampleSize + 1
  {
    var answer := Cell(Solids[r.row], r.kind);
    CatalogDistractors(r.row, r.kind);
  }

  /** One pass of the loop: the prompt and answer for the row and kind drawn
      (the `if`/`elif` chain over the six kinds), then its options. */
  method MakeQuestion(table: seq<Solid>, r: Round) returns (q: Question)
    requires ValidRound(table, r)
    ensures q == QuestionFor(table, r)
    ensures q.text == Prompt(r.kind, table[r.row].name)
    ensures q.answer == Cell(table[r.row], r.kind) && WellFormed(q)
  {
    QuestionForWellFormed(table, r);
    var solid := table[r.row];
    var text := Prompt(r.kind, solid.name);
    var answer := Cell(solid, r.kind);
    var options := CreateOptions(table, r.kind, answer, r.picks, r.draws);
    q := Question(text, answer, options);
  }

  /** Every question of a generated quiz asks for the cell of its round and is
      well formed. */
  lemma QuestionsWellFormed(table: seq<Solid>, rounds: seq<Round>)
    requires ValidRounds(table, rounds)
    ensures forall k :: 0 <= k < |rounds| ==>
              Questions(table, rounds)[k].answer == Cell(table[rounds[k].row], rounds[k].kind) &&
              WellFormed(Questions(table, rounds)[k])
  {
    forall k | 0 <= k < |rounds|
      ensures Questions(table, rounds)[k].answer == Cell(table[rounds[k].row], rounds[k].kind)
      ensures WellFormed(Questions(table, rounds)[k])
    {
      QuestionForWellFormed(table, rounds[k]);
    }
  }

  /** A prefix one longer is the prefix with the next element appended. */
  lemma PrefixStep<T>(s: seq<T>, k: nat)
    requires k < |s|
    ensures s[..k + 1] == s[..k] + [s[k]]
  {
  }

  /** `generate_quiz(num)`. */
  method GenerateQuiz(table: seq<Solid>, num: nat, rounds: seq<Round>) returns (quiz: seq<Question>)
    requires |rounds| == num && ValidRounds(table, rounds)
    ensures |quiz| == num
    ensures quiz == Questions(table, rounds)
    ensures forall k :: 0 <= k < num ==>
              quiz[k].answer == Cell(table[rounds[k].row], rounds[k].kind) && WellFormed(quiz[k])
  {
    quiz := [];
    for k := 0 to num
      invariant quiz == Questions(table, rounds)[..k]
    {
      var q := MakeQuestion(table, rounds[k]);
      PrefixStep(Questions(table, rounds), k);
      quiz := quiz + [q];
    }
    assert quiz == Questions(table, rounds);
    QuestionsWellFormed(table, rounds);
  }
}
