/** `parseDate` of both `Song` classes: the whitespace-split tokens of a
    `ctime` date (weekday, month, day, clock time, year) become
    "year-month-day", with the English month abbreviation replaced by its
    two-digit number by a chain of twelve `if` statements. */
module DateFormat {
  import opened SongValues

  const Abbreviations: seq<string> :=
    ["Jan", "Feb", "Mar", "Apr", "May", "Jun", "Jul", "Aug", "Sep", "Oct", "Nov", "Dec"]

  const Numbers: seq<string> :=
    ["01", "02", "03", "04", "05", "06", "07", "08", "09", "10", "11", "12"]

  /** One statement of the chain: `if temp[1] == from: temp[1] = to`. */
  function Rewrite(t: string, from: string, to: string): (r: string) {
    if t == from then to else t
  }

  /** The first `k` statements of the chain, applied in source order: the
      token is either left alone or replaced by one of the first `k` month
      numbers. */
  function RewriteChain(t: string, k: nat): (r: string)
    requires k <= |Abbreviations|
    ensures r == t || r in Numbers[..k]
  {
    if k == 0 then t else Rewrite(RewriteChain(t, k - 1), Abbreviations[k - 1], Numbers[k - 1])
  }

  /** The month slot after the whole chain has run: the token itself or a
      month number. */
  function MonthNumber(t: string): (r: string)
    ensures r == t || r in Numbers
  {
    assert Numbers[..12] == Numbers;
    RewriteChain(t, |Abbreviations|)
  }

  /** No number the chain writes is an abbreviation a later statement tests. */
  lemma NumberIsNotAbbreviation(j: nat, k: nat)
    requires j < 12 && k < 12
    ensures Numbers[j] != Abbreviations[k]
  {
  }

  /** The twelve abbreviations are different strings. */
  lemma AbbreviationsDiffer(i: nat, j: nat)
    requires i < j < 12
    ensures Abbreviations[i] != Abbreviations[j]
  {
  }

  lemma {:induction false} ChainOnMonth(m: nat, k: nat)
    requires m < 12 && k <= 12
    ensures RewriteChain(Abbreviations[m], k) == if k > m then Numbers[m] else Abbreviations[m]
  {
    if k > 0 {
      ChainOnMonth(m, k - 1);
      if k - 1 < m {
        AbbreviationsDiffer(k - 1, m);
      } else if k - 1 > m {
        NumberIsNotAbbreviation(m, k - 1);
      }
    }
  }

  lemma {:induction false} ChainOnOther(t: string, k: nat)
    requires t !in Abbreviations && k <= 12
    ensures RewriteChain(t, k) == t
  {
    if k > 0 {
      ChainOnOther(t, k - 1);
    }
  }

  /** Each of the twelve abbreviations becomes its two-digit month number. */
  lemma MonthNumberOfAbbreviation(m: nat)
    requires m < 12
    ensures MonthNumber(Abbreviations[m]) == Numbers[m]
  {
    ChainOnMonth(m, 12);
  }

  /** Any other token in the month slot is left as it is. */
  lemma MonthNumberOfOther(t: string)
    requires t !in Abbreviations
    ensures MonthNumber(t) == t
  {
    ChainOnOther(t, 12);
  }

  lemma NumbersDiffer(i: nat, j: nat)
    requires i < j < 12
    ensures Numbers[i] != Numbers[j]
  {
  }

  /** The mapping is one-to-one on the months: the number recovers the month. */
  lemma MonthNumberInjective(a: string, b: string)
    requires a in Abbreviations && b in Abbreviations
    requires MonthNumber(a) == MonthNumber(b)
    ensures a == b
  {
    var i :| 0 <= i < 12 && Abbreviations[i] == a;
    var j :| 0 <= j < 12 && Abbreviations[j] == b;
    MonthNumberOfAbbreviation(i);
    MonthNumberOfAbbreviation(j);
    if i < j {
      NumbersDiffer(i, j);
    } else if j < i {
      NumbersDiffer(j, i);
    }
  }

  lemma NumberHasNoDash(m: nat)
    requires m < 12
    ensures '-' !in Numbers[m]
  {
  }

  /** The chain never introduces a '-' into the month slot. */
  lemma MonthNumberHasNoDash(t: string)
    requires '-' !in t
    ensures '-' !in MonthNumber(t)
  {
    if t in Abbreviations {
      var m :| 0 <= m < 12 && Abbreviations[m] == t;
      MonthNumberOfAbbreviation(m);
      NumberHasNoDash(m);
    } else {
      MonthNumberOfOther(t);
    }
  }

  /** The whitespace-split tokens of a `time.ctime` string, which always has
      five: weekday, month, day, clock time, year. */
  type CtimeTokens = t: seq<string> | |t| >= 5 witness ["", "", "", "", ""]

  /** `parseDate` on the split tokens of a `ctime` string. Fewer than five
      tokens make the indexing raise `IndexError`: `None`. */
  function ParseDate(tokens: seq<string>): (r: Option<string>)
    ensures r.Some? <==> |tokens| >= 5
  {
    if |tokens| < 5 then None
    else Some(tokens[4] + "-" + MonthNumber(tokens[1]) + "-" + tokens[2])
  }

  /** Python's `s.split(c)` for a one-character separator. */
  function SplitOn(s: string, c: char): (parts: seq<string>)
    ensures |parts| >= 1
    ensures forall k :: 0 <= k < |parts| ==> c !in parts[k]
  {
    if s == [] then [[]]
    else
      var rest := SplitOn(s[1..], c);
      if s[0] == c then [[]] + rest else [[s[0]] + rest[0]] + rest[1..]
  }

  lemma {:induction false} SplitOnWhole(a: string, c: char)
    requires c !in a
    ensures SplitOn(a, c) == [a]
  {
    if a != [] {
      SplitOnWhole(a[1..], c);
      assert [a[0]] + a[1..] == a;
    }
  }

  lemma {:induction false} SplitOnJoin(a: string, b: string, c: char)
    requires c !in a
    ensures SplitOn(a + [c] + b, c) == [a] + SplitOn(b, c)
  {
    if a == [] {
      assert a + [c] + b == [c] + b;
      assert ([c] + b)[1..] == b;
    } else {
      SplitOnJoin(a[1..], b, c);
      assert (a + [c] + b)[1..] == a[1..] + [c] + b;
      assert [a[0]] + a[1..] == a;
    }
  }

  /** Splitting the formatted date on '-' gives back year, month number and
      day, provided none of the three tokens contains a '-'; for a real month
      abbreviation the middle part is that month's number. */
  lemma ParseDateRoundTrip(tokens: seq<string>)
    requires |tokens| >= 5
    requires '-' !in tokens[4] && '-' !in tokens[1] && '-' !in tokens[2]
    ensures SplitOn(ParseDate(tokens).value, '-') == [tokens[4], MonthNumber(tokens[1]), tokens[2]]
    ensures forall m :: 0 <= m < 12 && tokens[1] == Abbreviations[m] ==>
              SplitOn(ParseDate(tokens).value, '-')[1] == Numbers[m]
  {
    var month := MonthNumber(tokens[1]);
    MonthNumberHasNoDash(tokens[1]);
    forall m | 0 <= m < 12 && tokens[1] == Abbreviations[m] ensures month == Numbers[m] {
      MonthNumberOfAbbreviation(m);
    }
    SplitOnWhole(tokens[2], '-');
    SplitOnJoin(month, tokens[2], '-');
    SplitOnJoin(tokens[4], month + "-" + tokens[2], '-');
    assert ParseDate(tokens).value == tokens[4] + "-" + (month + "-" + tokens[2]);
  }
}
