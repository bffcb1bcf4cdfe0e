/**
 * The invoice records the dashboard shows, the fixed industry sample list,
 * and the result materialiser that turns the chosen input mode into the list
 * of records a run reveals when it completes.
 *
 * Money amounts that the records carry as numbers (line-item prices) are held
 * in euro cents; amounts the records carry as display strings stay strings.
 */
module Invoices {
  import opened Text

  datatype Seller = Seller(name: string, address: string, vat: string, email: string, color: string)

  /** One invoice line; `priceCents` is the unit price in euro cents. */
  datatype LineItem = LineItem(desc: string, qty: nat, priceCents: nat)

  datatype Details = Details(vat: string, subtotal: string, confidence: string,
                             extractionMethod: string, terms: string)

  datatype Invoice = Invoice(id: string, date: string, client: string, address: string,
                             amount: string, status: string, seller: Seller,
                             items: seq<LineItem>, details: Details)

  /** The two input modes offered by the STANDARD / CUSTOM switch. */
  datatype InputMode = Standard | Custom

  /** The industry-standard sample list used verbatim in standard mode. */
  const SampleData: seq<Invoice> := [
    Invoice("INV-2023-001", "2023-12-01", "Global Logistics Corp", "123 Logistics Way, Rotterdam, NL",
            "€1,240.50", "Verified",
            Seller("North Sea Shipping Ltd", "Port Quay 12, Rotterdam, NL", "NL800123456",
                   "ops@northseaship.com", "bg-blue-600"),
            [LineItem("Container Freight (20ft)", 1, 85000),
             LineItem("Customs Clearance Fee", 1, 14240),
             LineItem("Insurance Premium", 1, 24810)],
            Details("€248.10", "€992.40", "99.2%", "OCR-v4", "Net 30")),
    Invoice("INV-2023-002", "2023-12-05", "FastShip Ltd", "45 port Terminal, Hamburg, DE",
            "€890.00", "Verified",
            Seller("Hamburg Express Gmbh", "Elbe Str. 88, Hamburg, DE", "DE100987654",
                   "billing@hamburg-express.de", "bg-red-600"),
            [LineItem("Express Courier Delivery", 10, 7120),
             LineItem("Fuel Surcharge", 1, 17800)],
            Details("€178.00", "€712.00", "98.5%", "LLM-Extract", "Due on Receipt")),
    Invoice("INV-2023-003", "2023-12-10", "Euro Freight Services", "Industrial Zone B, Piraeus, GR",
            "€2,100.25", "Verified",
            Seller("Piraeus Port Services SA", "Akti Miaouli 5, Piraeus, GR", "EL099887766",
                   "accounting@piraeus-port.gr", "bg-emerald-600"),
            [LineItem("LTL Shipping Services", 2, 65000),
             LineItem("Warehouse Storage (Monthly)", 1, 38020),
             LineItem("Hazardous Material Handling", 1, 42005)],
            Details("€420.05", "€1,680.20", "99.8%", "Hybrid-AI", "Net 15"))
  ]

  /** The sample list holds the three invoices INV-2023-001..003, each with
      at least one line item, all verified. */
  lemma SampleDataFacts()
    ensures |SampleData| == 3
    ensures SampleData[0].id == "INV-2023-001"
    ensures SampleData[1].id == "INV-2023-002"
    ensures SampleData[2].id == "INV-2023-003"
    ensures forall k :: 0 <= k < |SampleData| ==> |SampleData[k].items| >= 1
    ensures forall k :: 0 <= k < |SampleData| ==> SampleData[k].status == "Verified"
  {
  }

  /** Two decimal digits for a value below 100, zero-padded. */
  function TwoDigits(c: nat): (s: string)
    requires c < 100
    ensures |s| == 2 && IsDigits(s)
  {
    [DigitChar(c / 10), DigitChar(c % 10)]
  }

  /** The display string `€${x.toFixed(2)}` of an amount of `cents`
      hundredths of a euro. */
  function AmountDisplay(cents: nat): (s: string)
    ensures |s| >= 5 && s[0] == '€' && s[|s| - 3] == '.'
  {
    "€" + NatToString(cents / 100) + "." + TwoDigits(cents % 100)
  }

  /** A string `€{e}.{f}` with a two-character `f` has `e` between the
      euro sign and the point, and `f` after the point. */
  lemma AmountParts(e: string, f: string)
    requires |f| == 2
    ensures var s := "€" + e + "." + f;
      && s[1..|s| - 3] == e && s[|s| - 2..] == f
  {
    var s := "€" + e + "." + f;
    assert s == ['€'] + e + ['.'] + f;
  }

  /** The two-digit rendering reads back as its value. */
  lemma TwoDigitsRoundTrip(c: nat)
    requires c < 100
    ensures ParseDigits(TwoDigits(c)) == c
  {
    var f := TwoDigits(c);
    DigitRoundTrip(c / 10);
    DigitRoundTrip(c % 10);
    assert f[..1] == [f[0]];
    assert [f[0]][..0] == [];
  }

  /** The amount display is a euro sign, the whole euros in decimal, a point
      and exactly two digits, and it reads back as the amount it shows. */
  lemma AmountDisplayRoundTrip(cents: nat)
    ensures var s := AmountDisplay(cents);
      && |s| >= 5 && s[0] == '€' && s[|s| - 3] == '.'
      && IsDigits(s[1..|s| - 3]) && IsDigits(s[|s| - 2..])
      && 100 * ParseDigits(s[1..|s| - 3]) + ParseDigits(s[|s| - 2..]) == cents
  {
    var euros := NatToString(cents / 100);
    var frac := TwoDigits(cents % 100);
    AmountParts(euros, frac);
    ParseNatToString(cents / 100);
    TwoDigitsRoundTrip(cents % 100);
  }

  /** The id of the custom record made from the comma-separated `token` at
      position `index`: the trimmed token, or `DATA-{index + 1}` when the
      trimmed token is empty (the JavaScript `||` treats "" as false). */
  function CustomId(token: string, index: nat): (id: string)
    ensures id != ""
    ensures !AllWhitespace(token) ==> id == Trim(token)
    ensures AllWhitespace(token) ==> id == "DATA-" + NatToString(index + 1)
  {
    TrimEmptyIff(token);
    var t := Trim(token);
    if t != "" then t else "DATA-" + NatToString(index + 1)
  }

  /** The record synthesised for one custom token. `date` is the date part of
      the ISO timestamp read when the record is made and `cents` the random
      amount drawn for it. */
  function CustomRecord(token: string, index: nat, date: string, cents: nat): (r: Invoice)
    ensures r.id != "" && r.date == date && r.amount == AmountDisplay(cents)
    ensures r.status == "Verified" && |r.items| == 1
  {
    Invoice(CustomId(token, index), date, "Private Client", "Customer Address Not Specified",
            AmountDisplay(cents), "Verified",
            Seller("Generic AI Automated Seller", "Digital Cloud Infrastructure", "AI-VAT-000",
                   "automated@system.ai", "bg-slate-700"),
            [LineItem("Automated Processing Service", 1, 100000)],
            Details("€240.00", "€1000.00", "97.4%", "AI-Scan", "Custom"))
  }

  /** The `dataToProcess` of a run: the sample list in standard mode, one
      synthesised record per comma-separated token of `input` in custom mode.
      `dateOf(i)` is the date the clock gives when the i-th record is made and
      `amountCents(i)` the random amount drawn for it. */
  function Materialize(mode: InputMode, input: string, dateOf: nat -> string, amountCents: nat -> nat): (r: seq<Invoice>)
    ensures mode == Standard ==> r == SampleData
    ensures r != []
  {
    match mode
    case Standard => SampleData
    case Custom =>
      var tokens := Split(input);
      seq(|tokens|, i requires 0 <= i < |tokens| => CustomRecord(tokens[i], i, dateOf(i), amountCents(i)))
  }

  /** A custom id is never empty, holds no comma, has no surrounding
      whitespace, and is the placeholder exactly when the token is blank. */
  lemma CustomIdShape(token: string, index: nat)
    requires ',' !in token
    ensures var id := CustomId(token, index);
      && id != ""
      && ',' !in id
      && Trim(id) == id
      && (AllWhitespace(token) ==> id == "DATA-" + NatToString(index + 1))
      && (!AllWhitespace(token) ==> id == Trim(token))
  {
    TrimEmptyIff(token);
    var t := Trim(token);
    if t != "" {
      TrimShape(token);
      var i, j :| 0 <= i <= j <= |token| && t == token[i..j]
                  && AllWhitespace(token[..i]) && AllWhitespace(token[j..]);
      assert forall k :: 0 <= k < |t| ==> t[k] == token[i + k];
      TrimIdempotent(token);
    } else {
      var id := "DATA-" + NatToString(index + 1);
      assert id[0] == 'D';
      assert id[|id| - 1] == NatToString(index + 1)[|NatToString(index + 1)| - 1];
      TrimFixed(id);
      assert forall k :: 5 <= k < |id| ==> id[k] == NatToString(index + 1)[k - 5];
    }
  }

  /** Standard mode yields the sample list unchanged. */
  lemma MaterializeStandard(input: string, dateOf: nat -> string, amountCents: nat -> nat)
    ensures Materialize(Standard, input, dateOf, amountCents) == SampleData
  {
  }

  /** Custom mode yields one record per comma-separated token, in order: as
      many records as commas plus one, record i carrying the trimmed i-th
      token as its id (or `DATA-{i + 1}` when that token is blank), a
      non-empty, comma-free, trimmed id, its own date and amount, and one
      line item. */
  lemma MaterializeCustom(input: string, dateOf: nat -> string, amountCents: nat -> nat)
    ensures var r := Materialize(Custom, input, dateOf, amountCents);
      && |r| == Count(input, ',') + 1
      && forall i :: 0 <= i < |r| ==>
           && (AllWhitespace(Split(input)[i]) ==> r[i].id == "DATA-" + NatToString(i + 1))
           && (!AllWhitespace(Split(input)[i]) ==> r[i].id == Trim(Split(input)[i]))
           && r[i].id != "" && ',' !in r[i].id && Trim(r[i].id) == r[i].id
           && r[i].date == dateOf(i) && r[i].amount == AmountDisplay(amountCents(i))
           && |r[i].items| == 1
  {
    var r := Materialize(Custom, input, dateOf, amountCents);
    var tokens := Split(input);
    SplitCount(input);
    forall i | 0 <= i < |r|
      ensures && (AllWhitespace(tokens[i]) ==> r[i].id == "DATA-" + NatToString(i + 1))
              && (!AllWhitespace(tokens[i]) ==> r[i].id == Trim(tokens[i]))
              && r[i].id != "" && ',' !in r[i].id && Trim(r[i].id) == r[i].id
    {
      assert r[i] == CustomRecord(tokens[i], i, dateOf(i), amountCents(i));
      CustomIdShape(tokens[i], i);
    }
  }

  /** Custom mode depends on the typed text only through its comma-separated
      tokens: for any comma-free tokens that join with commas to `input`,
      there is exactly one record per token, and record i carries the id made
      from token i. So no character of the input is dropped or invented when
      the records are made. */
  lemma MaterializeCustomByTokens(input: string, dateOf: nat -> string, amountCents: nat -> nat,
                                  tokens: seq<string>)
    requires |tokens| >= 1 && CommaFree(tokens) && Join(tokens) == input
    ensures var r := Materialize(Custom, input, dateOf, amountCents);
      && |r| == |tokens|
      && forall i :: 0 <= i < |r| ==> r[i].id == CustomId(tokens[i], i)
  {
    SplitJoin(tokens);
    MaterializeCustomIds(input, dateOf, amountCents);
  }

  /** Record i of custom mode carries the id made from the i-th piece of the
      split. */
  lemma MaterializeCustomIds(input: string, dateOf: nat -> string, amountCents: nat -> nat)
    ensures var r := Materialize(Custom, input, dateOf, amountCents);
      && |r| == |Split(input)|
      && forall i :: 0 <= i < |r| ==> r[i].id == CustomId(Split(input)[i], i)
  {
    var tokens := Split(input);
    var r := Materialize(Custom, input, dateOf, amountCents);
    forall i | 0 <= i < |r| ensures r[i].id == CustomId(tokens[i], i) {
      assert r[i] == CustomRecord(tokens[i], i, dateOf(i), amountCents(i));
    }
  }

  /** Every materialised record, in either mode, has at least one line item. */
  lemma MaterializeItemsNonEmpty(mode: InputMode, input: string, dateOf: nat -> string, amountCents: nat -> nat)
    ensures forall k :: 0 <= k < |Materialize(mode, input, dateOf, amountCents)| ==>
              |Materialize(mode, input, dateOf, amountCents)[k].items| >= 1
  {
    if mode == Standard {
      SampleDataFacts();
    } else {
      MaterializeCustom(input, dateOf, amountCents);
    }
  }

  /** `"A, B ,C"` gives exactly the ids A, B and C. */
  lemma MaterializeExampleTrimmed(dateOf: nat -> string, amountCents: nat -> nat)
    ensures var r := Materialize(Custom, "A, B ,C", dateOf, amountCents);
      |r| == 3 && r[0].id == "A" && r[1].id == "B" && r[2].id == "C"
  {
    var tokens := ["A", " B ", "C"];
    assert Join(tokens[2..]) == "C";
    assert Join(tokens[1..]) == " B ,C";
    assert Join(tokens) == "A, B ,C";
    assert CommaFree(tokens);
    SplitJoin(tokens);
    assert TrimStart("B ") == "B ";
    assert TrimStart(" B ") == "B ";
    assert TrimEnd("B") == "B";
    assert TrimEnd("B ") == "B";
    assert Trim("A") == "A";
    assert Trim("C") == "C";
  }

  /** The empty input gives the single placeholder record `DATA-1`. */
  lemma MaterializeExampleEmpty(dateOf: nat -> string, amountCents: nat -> nat)
    ensures var r := Materialize(Custom, "", dateOf, amountCents);
      |r| == 1 && r[0].id == "DATA-1"
  {
    assert Split("") == [""];
    assert Trim("") == "";
    assert NatToString(1) == "1";
    assert CustomId("", 0) == "DATA-1";
  }
}
