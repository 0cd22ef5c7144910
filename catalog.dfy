/** The fixed table of ten common solids the page shows and quizzes on, the
    question kinds with the column each one reads, and the Wikipedia link of a
    solid. */
module Catalog {
  import opened PyStr
  import opened Sampling

  /** One cell of the table, as pandas holds it. The melting-point column mixes
      integers with 419.5 and 231.9, so pandas stores it as floats; every float
      in it has one decimal, so it is kept exactly in tenths of a degree. */
  datatype Value =
    | IntVal(n: nat)          // an `int64` cell
    | FloatVal(tenths: nat)   // a `float64` cell worth `tenths / 10`
    | StrVal(s: string)       // a text cell

  /** The pandas dtype of a cell: every cell of one column has the same one. */
  datatype DType = Int64 | Float64 | Text

  function TypeOf(v: Value): DType {
    match v
    case IntVal(_) => Int64
    case FloatVal(_) => Float64
    case StrVal(_) => Text
  }

  /** `str(v)`: `str(np.int64(26)) == "26"`, `str(np.float64(1538.0)) == "1538.0"`,
      `str(np.float64(419.5)) == "419.5"`, and text unchanged. */
  function Show(v: Value): (s: string)
    ensures v.FloatVal? ==> |s| >= 3 && s[|s| - 2] == '.'
  {
    match v
    case IntVal(n) => NatToString(n)
    case FloatVal(t) => NatToString(t / 10) + "." + [DigitChar(t % 10)]
    case StrVal(s) => s
  }

  /** Within one dtype, `str` loses nothing: two cells of one column print
      alike only when they are equal. */
  lemma ShowInjective(a: Value, b: Value)
    requires TypeOf(a) == TypeOf(b) && Show(a) == Show(b)
    ensures a == b
  {
    var s := Show(a);
    match a
    case IntVal(m) =>
      NatToStringInjective(m, b.n);
    case FloatVal(t) =>
      var u := b.tenths;
      var last := |s| - 1;
      assert s == NatToString(t / 10) + "." + [DigitChar(t % 10)];
      assert s == NatToString(u / 10) + "." + [DigitChar(u % 10)];
      assert DigitChar(t % 10) == s[last] == DigitChar(u % 10);
      DigitCharInjective(t % 10, u % 10);
      assert NatToString(t / 10) == s[..last - 1] == NatToString(u / 10);
      NatToStringInjective(t / 10, u / 10);
    case StrVal(_) =>
  }

  /** One row of the table. */
  datatype Solid = Solid(
    name: string,             // "Solid"
    symbol: string,           // "Chemical Name"
    atomicNumber: nat,        // "Atomic Number"
    history: string,          // "Short History"
    worldReserve: string,     // "Total Reserve (World)"
    pakistanReserve: string,  // "Reserve in Pakistan"
    meltingTenths: nat,       // "Melting Point (°C)", in tenths of a degree
    boilingPoint: nat         // "Boiling Point (°C)"
  )

  const Solids: seq<Solid> := [
    Solid("Iron", "Fe", 26,
          "Used since the Iron Age; critical for construction and tools.",
          "150 billion tonnes", "2 billion tonnes", 15380, 2862),
    Solid("Aluminum", "Al", 13,
          "Discovered in the 19th century; known for its lightweight and corrosion resistance.",
          "75 billion tonnes", "500 million tonnes", 6600, 2519),
    Solid("Copper", "Cu", 29,
          "Valued for conductivity and malleability since ancient times.",
          "1 billion tonnes", "100 million tonnes", 10850, 2562),
    Solid("Gold", "Au", 79,
          "Admired for rarity and luster, symbolizing wealth and power.",
          "50,000 tonnes", "Trace amounts", 10640, 2856),
    Solid("Silver", "Ag", 47,
          "Historically used in currency, jewelry, and ornamental items.",
          "500,000 tonnes", "Not significant", 9610, 2162),
    Solid("Lead", "Pb", 82,
          "Known for its density and malleability; used in batteries and shielding.",
          "100 million tonnes", "10 million tonnes", 3270, 1749),
    Solid("Zinc", "Zn", 30,
          "Important for galvanizing and alloy creation.",
          "250 million tonnes", "5 million tonnes", 4195, 907),
    Solid("Tin", "Sn", 50,
          "Historically used since the Bronze Age; prevalent in alloys.",
          "5 million tonnes", "Low reserves", 2319, 2602),
    Solid("Nickel", "Ni", 28,
          "Essential for producing stainless steel and corrosion-resistant materials.",
          "80 million tonnes", "Limited reserves", 14550, 2913),
    Solid("Magnesium", "Mg", 12,
          "A lightweight metal significant in aerospace and automotive engineering.",
          "40 billion tonnes", "Moderate reserves", 6500, 1091)
  ]

  /** The six question kinds of the quiz. */
  datatype Kind = Melting | Boiling | Chemical | Atomic | Reserve | ReservePakistan

  /** The dtype of the column a kind reads. */
  function KindType(k: Kind): DType {
    match k
    case Melting => Float64
    case Boiling | Atomic => Int64
    case Chemical | Reserve | ReservePakistan => Text
  }

  /** The cell of `s` in the column of kind `k` (the kind-to-column map). */
  function Cell(s: Solid, k: Kind): (v: Value)
    ensures TypeOf(v) == KindType(k)
  {
    match k
    case Melting => FloatVal(s.meltingTenths)
    case Boiling => IntVal(s.boilingPoint)
    case Chemical => StrVal(s.symbol)
    case Atomic => IntVal(s.atomicNumber)
    case Reserve => StrVal(s.worldReserve)
    case ReservePakistan => StrVal(s.pakistanReserve)
  }

  /** The whole column of kind `k` of a table, top to bottom. */
  function Column(table: seq<Solid>, k: Kind): seq<Value> {
    seq(|table|, i requires 0 <= i < |table| => Cell(table[i], k))
  }

  /** No column of the table repeats a value. */
  lemma ColumnDistinct(k: Kind)
    ensures NoDup(Column(Solids, k))
  {
    match k
    case Melting => MeltingColumnDistinct();
    case Boiling => BoilingColumnDistinct();
    case Atomic => AtomicColumnDistinct();
    case Chemical => ChemicalColumnDistinct();
    case Reserve => ReserveColumnDistinct();
    case ReservePakistan => ReservePakistanColumnDistinct();
  }

  lemma MeltingColumnDistinct()
    ensures NoDup(Column(Solids, Melting))
  {
    var tenths := [15380, 6600, 10850, 10640, 9610, 3270, 4195, 2319, 14550, 6500];
    assert NoDup(tenths);
    assert forall i :: 0 <= i < |Solids| ==> Column(Solids, Melting)[i] == FloatVal(tenths[i]);
  }

  lemma BoilingColumnDistinct()
    ensures NoDup(Column(Solids, Boiling))
  {
    var points := [2862, 2519, 2562, 2856, 2162, 1749, 907, 2602, 2913, 1091];
    assert NoDup(points);
    assert forall i :: 0 <= i < |Solids| ==> Column(Solids, Boiling)[i] == IntVal(points[i]);
  }

  lemma AtomicColumnDistinct()
    ensures NoDup(Column(Solids, Atomic))
  {
    var numbers := [26, 13, 29, 79, 47, 82, 30, 50, 28, 12];
    assert NoDup(numbers);
    assert forall i :: 0 <= i < |Solids| ==> Column(Solids, Atomic)[i] == IntVal(numbers[i]);
  }

  lemma ChemicalColumnDistinct()
    ensures NoDup(Column(Solids, Chemical))
  {
    var symbols := ["Fe", "Al", "Cu", "Au", "Ag", "Pb", "Zn", "Sn", "Ni", "Mg"];
    assert NoDup(symbols);
    assert forall i :: 0 <= i < |Solids| ==> Column(Solids, Chemical)[i] == StrVal(symbols[i]);
  }

  lemma ReserveColumnDistinct()
    ensures NoDup(Column(Solids, Reserve))
  {
    var reserves := ["150 billion tonnes", "75 billion tonnes", "1 billion tonnes",
                     "50,000 tonnes", "500,000 tonnes", "100 million tonnes",
                     "250 million tonnes", "5 million tonnes", "80 million tonnes",
                     "40 billion tonnes"];
    assert NoDup(reserves);
    assert forall i :: 0 <= i < |Solids| ==> Column(Solids, Reserve)[i] == StrVal(reserves[i]);
  }

  lemma ReservePakistanColumnDistinct()
    ensures NoDup(Column(Solids, ReservePakistan))
  {
    var reserves := ["2 billion tonnes", "500 million tonnes", "100 million tonnes",
                     "Trace amounts", "Not significant", "10 million tonnes",
                     "5 million tonnes", "Low reserves", "Limited reserves",
                     "Moderate reserves"];
    assert NoDup(reserves);
    assert forall i :: 0 <= i < |Solids| ==> Column(Solids, ReservePakistan)[i] == StrVal(reserves[i]);
  }

  const WikiPrefix := "https://en.wikipedia.org/wiki/"

  /** The Wikipedia article of a solid: its own name, except that the
      American "Aluminum" is sent to the article "Aluminium". */
  function WikipediaLink(solid: string): (url: string)
    ensures |WikiPrefix| <= |url| && url[..|WikiPrefix|] == WikiPrefix
    ensures url[|WikiPrefix|..] == if solid == "Aluminum" then "Aluminium" else solid
  {
    if solid == "Aluminum" then WikiPrefix + "Aluminium" else WikiPrefix + solid
  }

  /** Two names share a link exactly when they are the same name or the two
      spellings of aluminium. */
  lemma WikipediaLinkCollision(a: string, b: string)
    ensures WikipediaLink(a) == WikipediaLink(b) <==>
            a == b || (a == "Aluminum" && b == "Aluminium") || (a == "Aluminium" && b == "Aluminum")
  {
    if WikipediaLink(a) == WikipediaLink(b) {
      assert WikipediaLink(a)[|WikiPrefix|..] == WikipediaLink(b)[|WikiPrefix|..];
    }
  }

  /** Every solid of the table has a link of its own. */
  lemma CatalogLinksDistinct(i: nat, j: nat)
    requires i < j < |Solids|
    ensures WikipediaLink(Solids[i].name) != WikipediaLink(Solids[j].name)
  {
    var a, b := Solids[i].name, Solids[j].name;
    assert a != "Aluminium" && b != "Aluminium";
    WikipediaLinkCollision(a, b);
  }
}
