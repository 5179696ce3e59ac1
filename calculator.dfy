/**
 * The calculator's edit-propagation state (src/hooks/useCalculator.ts).  Three
 * text fields -- price, monthly rent and yield -- are kept as the user typed
 * them; each edit handler stores its text verbatim and, when that text reads as
 * a number, recomputes exactly one other field.  React's state setters are
 * field assignments and every handler runs atomically on the current fields.
 */
module Calculator {
  import opened Wrappers
  import opened Financial
  import opened Countries
  import opened Benchmarks

  /** The host's conversions between text and numbers: `parse` is parseFloat (`None` for NaN),
      `fixed2` and `fixed0` are toFixed(2) and toFixed(0).  They are parameters of the model, so
      everything proved here holds whatever parsing and rounding the host does. */
  datatype NumberText = NumberText(
    parse: string -> Option<real>,
    fixed2: real -> string,
    fixed0: real -> string)

  /** The three text fields. */
  datatype Fields = Fields(price: string, monthlyRent: string, yieldPercent: string)

  /** The fields at the start of a session. */
  const INITIAL: Fields := Fields("400000", "1667", "5.00")

  /** getN: `parseFloat(s) || 0`, where both NaN and 0 are falsy. */
  function GetN(t: NumberText, s: string): (n: real)
    ensures n == t.parse(s).GetOr(0.0)
    ensures n != 0.0 ==> t.parse(s) == Some(n)
  {
    match t.parse(s)
    case Some(v) => if v != 0.0 then v else 0.0
    case None => 0.0
  }

  /** The yield text after updateYield(p, r): untouched for a zero price, else the new yield to 2 decimals. */
  function YieldUpdated(t: NumberText, p: real, r: real, yieldText: string): string {
    if p == 0.0 then yieldText else t.fixed2(CalculateYield(p, r))
  }

  /** handlePriceChange: the price text is stored; a price that parses to a nonzero number
      recomputes the yield from it and the stored rent. */
  function PriceEdited(t: NumberText, s: Fields, val: string): (r: Fields)
    ensures r.price == val && r.monthlyRent == s.monthlyRent
    ensures r.yieldPercent != s.yieldPercent ==> t.parse(val).Some? && t.parse(val).value != 0.0
  {
    var stored := s.(price := val);
    match t.parse(val)
    case None => stored
    case Some(p) => stored.(yieldPercent := YieldUpdated(t, p, GetN(t, s.monthlyRent), s.yieldPercent))
  }

  /** handleRentChange: the rent text is stored; a rent that parses recomputes the yield
      from the stored price, unless that price reads as 0. */
  function RentEdited(t: NumberText, s: Fields, val: string): (r: Fields)
    ensures r.monthlyRent == val && r.price == s.price
    ensures r.yieldPercent != s.yieldPercent ==> t.parse(val).Some? && GetN(t, s.price) != 0.0
  {
    var stored := s.(monthlyRent := val);
    match t.parse(val)
    case None => stored
    case Some(rent) => stored.(yieldPercent := YieldUpdated(t, GetN(t, s.price), rent, s.yieldPercent))
  }

  /** handleYieldChange: the yield text is stored; a yield that parses recomputes the rent
      from the stored price, rounded to whole units, with no zero-price guard. */
  function YieldEdited(t: NumberText, s: Fields, val: string): (r: Fields)
    ensures r.yieldPercent == val && r.price == s.price
    ensures r.monthlyRent != s.monthlyRent ==> t.parse(val).Some?
  {
    var stored := s.(yieldPercent := val);
    match t.parse(val)
    case None => stored
    case Some(y) => stored.(monthlyRent := t.fixed0(RentAtYield(GetN(t, s.price), y)))
  }

  /** One user edit of one input field. */
  datatype Edit = PriceEdit(text: string) | RentEdit(text: string) | YieldEdit(text: string)

  /** The handler the UI calls for an edit. */
  function Apply(t: NumberText, s: Fields, e: Edit): Fields {
    match e
    case PriceEdit(val) => PriceEdited(t, s, val)
    case RentEdit(val) => RentEdited(t, s, val)
    case YieldEdit(val) => YieldEdited(t, s, val)
  }

  /** The fields after a session of edits, applied in order. */
  function Replay(t: NumberText, s: Fields, edits: seq<Edit>): Fields
    decreases |edits|
  {
    if edits == [] then s else Replay(t, Apply(t, s, edits[0]), edits[1..])
  }

  /** The yield text is the 2-decimal rendering of the yield the price and rent give. */
  predicate YieldDerived(t: NumberText, s: Fields) {
    s.yieldPercent == t.fixed2(CalculateYield(GetN(t, s.price), GetN(t, s.monthlyRent)))
  }

  /** The rent text is the whole-unit rendering of the rent the price and yield give. */
  predicate RentDerived(t: NumberText, s: Fields) {
    s.monthlyRent == t.fixed0(RentAtYield(GetN(t, s.price), GetN(t, s.yieldPercent)))
  }

  /** All three texts read as numbers. */
  predicate AllParse(t: NumberText, s: Fields) {
    t.parse(s.price).Some? && t.parse(s.monthlyRent).Some? && t.parse(s.yieldPercent).Some?
  }

  /** The fields agree with the formulas: once all three texts are numbers and the price is not
      zero, one of the two fields the handlers derive is the derived value. */
  predicate Consistent(t: NumberText, s: Fields) {
    AllParse(t, s) && GetN(t, s.price) != 0.0 ==> YieldDerived(t, s) || RentDerived(t, s)
  }

  /** A price edit that parses to a nonzero number leaves the yield derived from the new price
      and the stored rent. */
  lemma PriceEditDerivesYield(t: NumberText, s: Fields, val: string)
    requires t.parse(val).Some? && t.parse(val).value != 0.0
    ensures YieldDerived(t, PriceEdited(t, s, val))
  {
  }

  /** A price edit that parses to 0 leaves the yield text as it was (no reset to 0). */
  lemma ZeroPriceKeepsYield(t: NumberText, s: Fields, val: string)
    requires t.parse(val) == Some(0.0)
    ensures PriceEdited(t, s, val) == s.(price := val)
  {
  }

  /** A rent edit that parses, under a stored price that does not read as 0, leaves the yield derived. */
  lemma RentEditDerivesYield(t: NumberText, s: Fields, val: string)
    requires t.parse(val).Some? && GetN(t, s.price) != 0.0
    ensures YieldDerived(t, RentEdited(t, s, val))
  {
  }

  /** A yield edit that parses leaves the rent derived, whatever the price. */
  lemma YieldEditDerivesRent(t: NumberText, s: Fields, val: string)
    requires t.parse(val).Some?
    ensures RentDerived(t, YieldEdited(t, s, val))
  {
  }

  /** An edit whose text does not parse stores the text and changes nothing else. */
  lemma UnparsableEditOnlyStores(t: NumberText, s: Fields, e: Edit)
    requires t.parse(e.text) == None
    ensures Apply(t, s, e) == match e
      case PriceEdit(val) => s.(price := val)
      case RentEdit(val) => s.(monthlyRent := val)
      case YieldEdit(val) => s.(yieldPercent := val)
  {
  }

  /** Unparsable stored rent text counts as a zero rent in a recomputation, yet stays as typed. */
  lemma UnparsableRentCountsAsZero(t: NumberText, s: Fields, val: string)
    requires t.parse(s.monthlyRent) == None
    requires t.parse(val).Some? && t.parse(val).value != 0.0
    ensures PriceEdited(t, s, val) == Fields(val, s.monthlyRent, t.fixed2(0.0))
  {
  }

  /** The price text is written only by a price edit, and every handler writes at most the
      edited field and one derived field. */
  lemma EditFootprint(t: NumberText, s: Fields, e: Edit)
    ensures Apply(t, s, e).price != s.price ==> e.PriceEdit?
    ensures e.PriceEdit? ==> Apply(t, s, e).monthlyRent == s.monthlyRent
    ensures !e.PriceEdit? ==> Apply(t, s, e).price == s.price
  {
  }

  /** Every edit leaves the fields consistent, whatever they were before: the last edited field
      decides which derivation holds (a yield edit derives the rent, any other edit the yield). */
  lemma EditLeavesConsistent(t: NumberText, s: Fields, e: Edit)
    ensures Consistent(t, Apply(t, s, e))
    ensures AllParse(t, Apply(t, s, e)) && GetN(t, Apply(t, s, e).price) != 0.0 ==>
      if e.YieldEdit? then RentDerived(t, Apply(t, s, e)) else YieldDerived(t, Apply(t, s, e))
  {
  }

  /** After any session with at least one edit the fields are consistent. */
  lemma {:induction false} ReplayConsistent(t: NumberText, s: Fields, edits: seq<Edit>)
    requires edits != []
    ensures Consistent(t, Replay(t, s, edits))
    decreases |edits|
  {
    if |edits| == 1 {
      EditLeavesConsistent(t, s, edits[0]);
    } else {
      ReplayConsistent(t, Apply(t, s, edits[0]), edits[1..]);
    }
  }

  /** The text of the last price edit of a session, or `price` if it has none. */
  function LastPriceText(edits: seq<Edit>, price: string): string
    decreases |edits|
  {
    if edits == [] then price
    else LastPriceText(edits[1..], if edits[0].PriceEdit? then edits[0].text else price)
  }

  /** Over a whole session the price text is exactly what the user last typed into it:
      no recomputation ever overwrites it. */
  lemma {:induction false} ReplayPrice(t: NumberText, s: Fields, edits: seq<Edit>)
    ensures Replay(t, s, edits).price == LastPriceText(edits, s.price)
    decreases |edits|
  {
    if edits != [] {
      EditFootprint(t, s, edits[0]);
      ReplayPrice(t, Apply(t, s, edits[0]), edits[1..]);
    }
  }

  /** The initial fields: with a host that reads the seed texts as their numbers and renders
      5.001 as "5.00", the seed yield is the one the seed price and rent give, and Morocco's
      thresholds classify it as average, "safe / low". */
  lemma InitialState(t: NumberText)
    requires t.parse("400000") == Some(400000.0)
    requires t.parse("1667") == Some(1667.0)
    requires t.parse("5.00") == Some(5.0)
    requires t.fixed2(5.001) == "5.00"
    ensures CalculateYield(GetN(t, INITIAL.price), GetN(t, INITIAL.monthlyRent)) == 5.001
    ensures YieldDerived(t, INITIAL)
    ensures GetVerdict(GetN(t, INITIAL.yieldPercent), "MA") == BenchmarkResult(Average, SafeLow)
  {
  }

  /** Typing yield 10 at the initial price 400000 writes the rent 10000/3 rendered to whole
      units, a value whose nearest integer is 3333; price and typed yield stay as they are. */
  lemma YieldTenAtInitialPrice(t: NumberText)
    requires t.parse("400000") == Some(400000.0)
    requires t.parse("10") == Some(10.0)
    ensures YieldEdited(t, INITIAL, "10") == Fields("400000", t.fixed0(10000.0 / 3.0), "10")
    ensures 3332.5 < 10000.0 / 3.0 < 3333.5
  {
  }

  /** The calculator hook's state: three text cells updated in place by the edit handlers. */
  class CalculatorState {
    const num: NumberText
    var price: string
    var monthlyRent: string
    var yieldPercent: string

    /** The current fields as a value. */
    function Snapshot(): Fields
      reads this
    {
      Fields(price, monthlyRent, yieldPercent)
    }

    constructor (num: NumberText)
      ensures this.num == num
      ensures Snapshot() == INITIAL
    {
      this.num := num;
      price := "400000";
      monthlyRent := "1667";
      yieldPercent := "5.00";
    }

    /** updateYield: a zero price changes nothing, otherwise the yield cell gets the new yield. */
    method UpdateYield(p: real, r: real)
      modifies this`yieldPercent
      ensures yieldPercent == YieldUpdated(num, p, r, old(yieldPercent))
    {
      if p == 0.0 {
        return;
      }
      var y := CalculateYield(p, r);
      yieldPercent := num.fixed2(y);
    }

    /** updateRent: the rent cell gets the rent at yield `y` on price `p`, in whole units. */
    method UpdateRent(p: real, y: real)
      modifies this`monthlyRent
      ensures monthlyRent == num.fixed0(RentAtYield(p, y))
    {
      var annual := CalculateAnnualRent(p, y);
      var monthly := CalculateMonthlyRent(annual);
      monthlyRent := num.fixed0(monthly);
    }

    method HandlePriceChange(val: string)
      modifies this`price, this`yieldPercent
      ensures Snapshot() == PriceEdited(num, old(Snapshot()), val)
    {
      price := val;
      var p := num.parse(val);
      var r := GetN(num, monthlyRent);
      if p.Some? {
        UpdateYield(p.value, r);
      }
    }

    method HandleRentChange(val: string)
      modifies this`monthlyRent, this`yieldPercent
      ensures Snapshot() == RentEdited(num, old(Snapshot()), val)
    {
      monthlyRent := val;
      var r := num.parse(val);
      var p := GetN(num, price);
      if r.Some? {
        UpdateYield(p, r.value);
      }
    }

    method HandleYieldChange(val: string)
      modifies this`yieldPercent, this`monthlyRent
      ensures Snapshot() == YieldEdited(num, old(Snapshot()), val)
    {
      yieldPercent := val;
      var y := num.parse(val);
      var p := GetN(num, price);
      if y.Some? {
        UpdateRent(p, y.value);
      }
    }

    /** The verdict the hook exposes: the stored yield text, read with getN, classified for
        the selected country; a yield text that does not parse is classified as 0. */
    function Verdict(countryCode: string): (r: BenchmarkResult)
      reads this
      ensures num.parse(yieldPercent) == None ==> r == GetVerdict(0.0, countryCode)
      ensures num.parse(yieldPercent).Some? ==> r == GetVerdict(num.parse(yieldPercent).value, countryCode)
    {
      GetVerdict(GetN(num, yieldPercent), countryCode)
    }
  }
}
