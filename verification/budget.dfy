/** The budget text parser of `crawl_project_amount` (app/services/project_crawler.py):
    `re.findall(r"(\d[\d\s ]*)\s*€", text)`, then `int(...)` of each group
    with no-break spaces and spaces removed. */
module Budget {
  import opened Wrappers
  import opened Text

  const Euro: char := '€'
  const NoBreakSpace: char := '\U{a0}'

  /** What `crawl_project_amount` returns: the integer `0`, or `[min, max]`. */
  datatype Amount = Zero | Range(low: nat, high: nat)

  /** `int()` refused a group: white space other than the two removed separators sits
      between digits (for instance U+202F, the narrow no-break space). */
  datatype AmountError = NotAnInteger(group: string)

  /** A character of the class `[\d\s ]`, `\d` read as the ASCII digits (U+00A0
      is already white space). */
  predicate InRun(c: char)
  {
    IsDigit(c) || IsSpace(c)
  }

  /** The length of the maximal run of `[\d\s]` characters starting at `i`. */
  function RunEnd(s: string, i: nat): (e: nat)
    requires i <= |s|
    ensures i <= e <= |s|
    ensures forall k :: i <= k < e ==> InRun(s[k])
    ensures e < |s| ==> !InRun(s[e])
    decreases |s| - i
  {
    if i < |s| && InRun(s[i]) then RunEnd(s, i + 1) else i
  }

  /** The groups `re.findall` returns, left to right. A match starts at a digit and
      ends at the `€` that follows the maximal run of digits and white space after
      it: as `€` is outside the class, the greedy run cannot stop earlier and still
      reach it, so the group is the whole run, trailing white space included. A
      failed attempt moves on by one character; a match resumes after its `€`. */
  function Groups(s: string): (gs: seq<string>)
    ensures forall g :: g in gs ==> g != [] && IsDigit(g[0]) && (forall k :: 0 <= k < |g| ==> InRun(g[k]))
    decreases |s|
  {
    if s == [] then []
    else if IsDigit(s[0]) then
      var e := RunEnd(s, 1);
      if e < |s| && s[e] == Euro then [s[..e]] + Groups(s[e + 1..]) else Groups(s[1..])
    else Groups(s[1..])
  }

  /** `int(g.replace(" ", "").replace(" ", ""))`: `int()` ignores white space at
      both ends; anything else that is not a digit makes it raise `ValueError`. */
  function GroupValue(g: string): Result<nat, AmountError>
  {
    var t := Strip(Cleaned(g));
    if t != [] && AllDigits(t) then Ok(DigitsValue(t)) else Err(NotAnInteger(g))
  }

  /** `g.replace(" ", "").replace(" ", "")`: no-break spaces, then spaces, removed. */
  function Cleaned(g: string): string
  {
    Remove(Remove(g, NoBreakSpace), ' ')
  }

  /** The amount for a budget tooltip text: two or more groups give the first two,
      one group gives it twice, none gives `0`. */
  function ParseBudget(text: string): Result<Amount, AmountError>
  {
    var gs := Groups(text);
    if |gs| >= 2 then
      match GroupValue(gs[0])
      case Err(e) => Err(e)
      case Ok(lo) =>
        match GroupValue(gs[1])
        case Err(e) => Err(e)
        case Ok(hi) => Ok(Range(lo, hi))
    else if |gs| == 1 then
      match GroupValue(gs[0])
      case Err(e) => Err(e)
      case Ok(n) => Ok(Range(n, n))
    else Ok(Zero)
  }

  // ---------------------------------------------------------------------------
  // Scanner lemmas

  lemma RunEndOver(s: string, i: nat, e: nat)
    requires i <= e < |s|
    requires forall k :: i <= k < e ==> InRun(s[k])
    requires !InRun(s[e])
    ensures RunEnd(s, i) == e
    decreases e - i
  {
    if i < e { RunEndOver(s, i + 1, e); }
  }

  /** A digit, then digits and white space, then `€`: that run is the next group. */
  lemma {:induction false} GroupsMatch(g: string, rest: string)
    requires g != [] && IsDigit(g[0])
    requires forall k :: 0 <= k < |g| ==> InRun(g[k])
    ensures Groups(g + [Euro] + rest) == [g] + Groups(rest)
  {
    var s := g + [Euro] + rest;
    var e := |g|;
    assert s[e] == Euro;
    forall k | 1 <= k < e ensures InRun(s[k]) {
      assert s[k] == g[k];
    }
    RunEndOver(s, 1, e);
    assert s[..e] == g;
    assert s[e + 1..] == rest;
  }

  /** Digits, optional spaces, `€`: one group made of the digits and spaces. */
  lemma GroupsLeading(d: string, sp: string, rest: string)
    requires d != [] && AllDigits(d)
    requires forall k :: 0 <= k < |sp| ==> IsSpace(sp[k])
    ensures Groups(d + sp + [Euro] + rest) == [d + sp] + Groups(rest)
  {
    var g := d + sp;
    forall k | 0 <= k < |g| ensures InRun(g[k]) {
      if k < |d| { assert g[k] == d[k]; } else { assert g[k] == sp[k - |d|]; }
    }
    GroupsMatch(g, rest);
  }

  /** `GroupValue` reads digits followed by a space. */
  lemma {:induction false} GroupValueDigits(d: string)
    requires d != [] && AllDigits(d)
    ensures GroupValue(d + " ") == Ok(DigitsValue(d))
  {
    RemoveDigitsUnchanged(d, NoBreakSpace);
    RemoveAppend(d, " ", NoBreakSpace);
    RemoveAppend(d, " ", ' ');
    RemoveDigitsUnchanged(d, ' ');
    assert Remove(" ", NoBreakSpace) == " ";
    assert Remove(" ", ' ') == "";
    assert Remove(Remove(d + " ", NoBreakSpace), ' ') == d;
    StripDigits(d);
  }

  /** `GroupValue` reads back a rendered number with a trailing space. */
  lemma GroupValueDecimal(n: nat)
    ensures GroupValue(Decimal(n) + " ") == Ok(n)
  {
    GroupValueDigits(Decimal(n));
    DecimalRoundTrip(n);
  }

  /** A no-break space between digits is a thousands separator and is ignored. */
  lemma GroupValueThousands(a: string, b: string)
    ensures Cleaned(a + [NoBreakSpace] + b) == Cleaned(a + b)
  {
    RemoveNoBreakSpace(a, b);
  }

  lemma {:induction false} RemoveNoBreakSpace(a: string, b: string)
    ensures Remove(a + [NoBreakSpace] + b, NoBreakSpace) == Remove(a + b, NoBreakSpace)
  {
    RemoveAppend(a + [NoBreakSpace], b, NoBreakSpace);
    RemoveAppend(a, [NoBreakSpace], NoBreakSpace);
    RemoveAppend(a, b, NoBreakSpace);
    assert Remove([NoBreakSpace], NoBreakSpace) == [];
    assert Remove(a + [NoBreakSpace], NoBreakSpace) == Remove(a, NoBreakSpace);
  }

  lemma {:induction false} RemoveAppend(a: string, b: string, c: char)
    ensures Remove(a + b, c) == Remove(a, c) + Remove(b, c)
  {
    if a != [] {
      assert (a + b)[1..] == a[1..] + b;
      RemoveAppend(a[1..], b, c);
    } else {
      assert a + b == b;
    }
  }

  lemma {:induction false} RemoveDigitsUnchanged(d: string, c: char)
    requires AllDigits(d) && !IsDigit(c)
    ensures Remove(d, c) == d
  {
    if d != [] { RemoveDigitsUnchanged(d[1..], c); }
  }

  lemma StripDigits(d: string)
    requires d != [] && AllDigits(d)
    ensures Strip(d) == d
  {
  }

  /** The budget text of the project page, "<low> € à <high> €", for any two amounts,
      reads back as exactly `[low, high]`. */
  function BudgetText(low: nat, high: nat): string
  {
    Decimal(low) + " " + [Euro] + " à " + Decimal(high) + " " + [Euro]
  }

  lemma {:induction false} ParseBudgetRoundTrip(low: nat, high: nat)
    ensures ParseBudget(BudgetText(low, high)) == Ok(Range(low, high))
  {
    BudgetTextGroups(low, high);
    GroupValueDecimal(low);
    GroupValueDecimal(high);
  }

  lemma {:induction false} BudgetTextGroups(low: nat, high: nat)
    ensures Groups(BudgetText(low, high)) == [Decimal(low) + " ", Decimal(high) + " "]
  {
    var g1, g2 := Decimal(low) + " ", Decimal(high) + " ";
    DecimalGroup(low);
    DecimalGroup(high);
    TwoGroups(g1, g2);
    assert BudgetText(low, high) == g1 + [Euro] + " à " + g2 + [Euro];
  }

  lemma DecimalGroup(n: nat)
    ensures var g := Decimal(n) + " "; IsDigit(g[0]) && forall k :: 0 <= k < |g| ==> InRun(g[k])
  {
  }

  lemma {:induction false} LastGroup(d: string)
    requires d != [] && AllDigits(d)
    ensures Groups(d + " " + [Euro]) == [d + " "]
  {
    GroupsLeading(d, " ", []);
    assert d + " " + [Euro] == d + " " + [Euro] + [];
  }

  /** A prefix without digits is skipped. */
  lemma {:induction false} GroupsSkipNonDigits(p: string, rest: string)
    requires forall k :: 0 <= k < |p| ==> !IsDigit(p[k])
    ensures Groups(p + rest) == Groups(rest)
  {
    if p != [] {
      assert (p + rest)[1..] == p[1..] + rest;
      GroupsSkipNonDigits(p[1..], rest);
    } else {
      assert p + rest == rest;
    }
  }

  /** A single "<n> €" reads back as `[n, n]`. */
  lemma {:induction false} ParseBudgetSingle(n: nat)
    ensures ParseBudget(Decimal(n) + " " + [Euro]) == Ok(Range(n, n))
  {
    GroupsLeading(Decimal(n), " ", []);
    assert Decimal(n) + " " + [Euro] == Decimal(n) + " " + [Euro] + [];
    GroupValueDecimal(n);
  }

  /** A text without any ASCII digit has no group and gives `0`. */
  lemma {:induction false} ParseBudgetNoDigits(text: string)
    requires forall k :: 0 <= k < |text| ==> !IsDigit(text[k])
    ensures ParseBudget(text) == Ok(Zero)
  {
    NoDigitsNoGroups(text);
  }

  lemma {:induction false} NoDigitsNoGroups(text: string)
    requires forall k :: 0 <= k < |text| ==> !IsDigit(text[k])
    ensures Groups(text) == []
  {
    if text != [] { NoDigitsNoGroups(text[1..]); }
  }

  /** The worked example of the source: "500 € à 1 000 €" with a no-break space as
      thousands separator gives `[500, 1000]`. */
  lemma ParseBudgetExample()
    ensures ParseBudget("500 € à 1\U{a0}000 €") == Ok(Range(500, 1000))
  {
    var g1, g2 := "500 ", "1\U{a0}000 ";
    assert "500 € à 1\U{a0}000 €" == g1 + [Euro] + " à " + g2 + [Euro];
    TwoGroups(g1, g2);
    ExampleValues();
  }

  /** Two groups separated by " à ", as on the project page. */
  lemma {:induction false} TwoGroups(g1: string, g2: string)
    requires g1 != [] && IsDigit(g1[0]) && forall k :: 0 <= k < |g1| ==> InRun(g1[k])
    requires g2 != [] && IsDigit(g2[0]) && forall k :: 0 <= k < |g2| ==> InRun(g2[k])
    ensures Groups(g1 + [Euro] + " à " + g2 + [Euro]) == [g1, g2]
  {
    var last := g2 + [Euro];
    var tail := " à " + last;
    assert Groups(last) == [g2] by {
      GroupsMatch(g2, []);
      assert last == g2 + [Euro] + [];
    }
    assert Groups(tail) == [g2] by {
      GroupsSkipNonDigits(" à ", last);
    }
    GroupsMatch(g1, tail);
    assert g1 + [Euro] + " à " + g2 + [Euro] == g1 + [Euro] + tail;
  }

  lemma {:induction false} RemoveAbsent(s: string, c: char)
    requires c !in s
    ensures Remove(s, c) == s
  {
    if s != [] { RemoveAbsent(s[1..], c); }
  }

  lemma ExampleValues()
    ensures GroupValue("500 ") == Ok(500)
    ensures GroupValue("1\U{a0}000 ") == Ok(1000)
  {
    Example500();
    Example1000();
  }

  lemma Example500()
    ensures GroupValue("500 ") == Ok(500)
  {
    GroupValueDigits("500");
    assert "500" + " " == "500 ";
    Value500();
  }

  lemma Value500()
    ensures DigitsValue("500") == 500
  {
    assert "500"[..2] == "50";
    assert "50"[..1] == "5";
    assert "5"[..0] == "";
  }

  lemma Example1000()
    ensures GroupValue("1\U{a0}000 ") == Ok(1000)
  {
    ExampleThousandCleaned();
    ExamplePlainThousand();
    GroupValueByCleaned("1\U{a0}000 ", "1000 ");
  }

  lemma ExampleThousandCleaned()
    ensures Cleaned("1\U{a0}000 ") == Cleaned("1000 ")
  {
    GroupValueThousands("1", "000 ");
    assert "1" + [NoBreakSpace] + "000 " == "1\U{a0}000 ";
    assert "1" + "000 " == "1000 ";
  }

  lemma ExamplePlainThousand()
    ensures GroupValue("1000 ") == Ok(1000)
  {
    GroupValueDigits("1000");
    assert "1000" + " " == "1000 ";
    Value1000();
  }

  lemma Value1000()
    ensures DigitsValue("1000") == 1000
  {
    assert "1000"[..3] == "100";
    assert "100"[..2] == "10";
    assert "10"[..1] == "1";
    assert "1"[..0] == "";
  }

  lemma GroupValueByCleaned(g: string, h: string)
    requires Cleaned(g) == Cleaned(h) && GroupValue(h).Ok?
    ensures GroupValue(g) == GroupValue(h)
  {
  }
}
