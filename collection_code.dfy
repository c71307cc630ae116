/**
 * The collection code a student receives: `SHOP-YYMMDD-NNN`, built from the
 * active shop name, the upload day and a per-shop, per-day counter
 * (App.tsx, handleFileUpload).
 */
module CollectionCodes {
  import opened Types
  import opened Text

  /**
   * A day as a JavaScript Date reports it in local time: getFullYear(),
   * the zero-based getMonth() and getDate().
   */
  datatype CalendarDate = CalendarDate(year: int, month: int, day: int)

  predicate ValidDate(d: CalendarDate) {
    1000 <= d.year <= 9999 && 0 <= d.month <= 11 && 1 <= d.day <= 31
  }

  /** `s.slice(start)` for a non-negative start. */
  function Slice(s: string, start: nat): string {
    if start <= |s| then s[start..] else []
  }

  /** Two characters of year (the year's text minus its first two), then month+1 and day, each padded to two. */
  function DatePrefix(d: CalendarDate): string {
    Slice(IntToString(d.year), 2)
      + PadStart(IntToString(d.month + 1), 2, '0')
      + PadStart(IntToString(d.day), 2, '0')
  }

  /** `shopName || shopId || 'UNKNOWN'`: empty strings count as missing. */
  function ActiveShopName(shopName: string, shopId: Option<string>): (active: string)
    ensures active != []
    ensures shopName != [] ==> active == shopName
    ensures shopName == [] && shopId.Some? && shopId.value != [] ==> active == shopId.value
    ensures shopName == [] && !(shopId.Some? && shopId.value != []) ==> active == "UNKNOWN"
  {
    if shopName != [] then shopName
    else if shopId.Some? && shopId.value != [] then shopId.value
    else "UNKNOWN"
  }

  /** `activeShopName.substring(0, 4).toUpperCase()`. */
  function ShopPrefix(active: string): (p: string)
    ensures |p| == if |active| < 4 then |active| else 4
    ensures NoLower(p)
  {
    ToUpperHasNoLower(active[..if |active| < 4 then |active| else 4]);
    ToUpper(active[..if |active| < 4 then |active| else 4])
  }

  /** `String(counter).padStart(3, '0')`. */
  function CounterField(counter: int): string {
    PadStart(IntToString(counter), 3, '0')
  }

  function CollectionCode(shopPrefix: string, datePrefix: string, counter: int): string {
    shopPrefix + "-" + datePrefix + "-" + CounterField(counter)
  }

  /** Where the counter lives in the store: counters/{shop}/{datePrefix}. */
  datatype CounterKey = CounterKey(shop: string, day: string)

  // ---------------------------------------------------------------------
  // Properties
  // ---------------------------------------------------------------------

  lemma ScaleByTen(a: nat, p: nat, b: nat, c: nat)
    ensures (a * p + b) * 10 + c == a * (10 * p) + (b * 10 + c)
  {
  }

  /** The digits before position k count 10^(|s|-k) times as much as those after. */
  lemma {:induction false} DigitsValueSplit(s: string, k: nat)
    requires AllDigits(s) && k <= |s|
    ensures DigitsValue(s) == DigitsValue(s[..k]) * Pow10(|s| - k) + DigitsValue(s[k..])
  {
    if k == |s| {
      assert s[..k] == s && s[k..] == [];
    } else {
      var s' := s[..|s| - 1];
      var c := s[|s| - 1];
      DigitsValueSplit(s', k);
      assert s'[..k] == s[..k];
      var t := s[k..];
      assert t[..|t| - 1] == s'[k..];
      assert t[|t| - 1] == c;
      assert DigitsValue(t) == DigitsValue(s'[k..]) * 10 + DigitValue(c);
      assert DigitsValue(s) == DigitsValue(s') * 10 + DigitValue(c);
      assert Pow10(|s| - k) == 10 * Pow10(|s'| - k);
      ScaleByTen(DigitsValue(s[..k]), Pow10(|s'| - k), DigitsValue(s'[k..]), DigitValue(c));
    }
  }

  /** Month and day fields: the number padded to exactly two digits. */
  lemma TwoDigitField(n: int)
    requires 1 <= n <= 99
    ensures var f := PadStart(IntToString(n), 2, '0');
            |f| == 2 && AllDigits(f) && DigitsValue(f) == n
  {
    NatToStringLength(n, 2);
    ZeroPadValue(NatToString(n), 2);
  }

  lemma SmallPowers()
    ensures Pow10(2) == 100 && Pow10(3) == 1000 && Pow10(4) == 10000
  {
  }

  lemma HundredsSplit(a: nat, b: nat, y: int)
    requires y == a * 100 + b && b < 100
    ensures b == y % 100
  {
  }

  /** The year field of a four-digit year: its last two digits. */
  lemma YearField(year: int)
    requires 1000 <= year <= 9999
    ensures var f := Slice(IntToString(year), 2);
            |f| == 2 && AllDigits(f) && DigitsValue(f) == year % 100
  {
    var s := NatToString(year);
    SmallPowers();
    NatToStringLength(year, 4);
    NatToStringLength(year, 3);
    assert |s| == 4;
    assert IntToString(year) == s;
    var f := s[2..];
    assert Slice(IntToString(year), 2) == f;
    DigitsValueSplit(s, 2);
    assert Pow10(|s| - 2) == 100;
    DigitsValueBelow(f);
    HundredsSplit(DigitsValue(s[..2]), DigitsValue(f), year);
  }

  /**
   * For a four-digit year the date prefix is six digits: the year modulo
   * 100, then month + 1, then the day, two digits each.
   */
  lemma DatePrefixDigits(d: CalendarDate)
    requires ValidDate(d)
    ensures var p := DatePrefix(d);
            && |p| == 6 && AllDigits(p)
            && DigitsValue(p[..2]) == d.year % 100
            && DigitsValue(p[2..4]) == d.month + 1
            && DigitsValue(p[4..]) == d.day
  {
    var y := Slice(IntToString(d.year), 2);
    var m := PadStart(IntToString(d.month + 1), 2, '0');
    var dd := PadStart(IntToString(d.day), 2, '0');
    var p := DatePrefix(d);
    assert p == y + m + dd;
    YearField(d.year);
    TwoDigitField(d.month + 1);
    TwoDigitField(d.day);
    JoinFields(y, m, dd);
  }

  lemma JoinFields(y: string, m: string, dd: string)
    requires |y| == 2 && |m| == 2 && |dd| == 2
    requires AllDigits(y) && AllDigits(m) && AllDigits(dd)
    ensures var p := y + m + dd;
            && |p| == 6 && AllDigits(p)
            && p[..2] == y && p[2..4] == m && p[4..] == dd
  {
  }

  /** Within one century, different days have different date prefixes. */
  lemma DatePrefixInjective(d1: CalendarDate, d2: CalendarDate)
    requires ValidDate(d1) && ValidDate(d2)
    requires d1.year / 100 == d2.year / 100
    requires DatePrefix(d1) == DatePrefix(d2)
    ensures d1 == d2
  {
    DatePrefixDigits(d1);
    DatePrefixDigits(d2);
  }

  /**
   * The counter field is the counter in decimal, zero-padded to at least
   * three digits: exactly three up to 999, and never truncated above.
   */
  lemma CounterFieldDigits(counter: nat)
    ensures var f := CounterField(counter);
            && AllDigits(f) && DigitsValue(f) == counter
            && (counter <= 999 ==> |f| == 3)
            && (counter >= 1000 ==> |f| >= 4)
  {
    ZeroPadValue(NatToString(counter), 3);
    NatToStringLength(counter, 3);
    assert Pow10(3) == 1000;
  }

  /** Different counters give different codes for the same shop and day. */
  lemma CodesDistinct(shopPrefix: string, datePrefix: string, c1: nat, c2: nat)
    requires c1 != c2
    ensures CollectionCode(shopPrefix, datePrefix, c1) != CollectionCode(shopPrefix, datePrefix, c2)
  {
    var head := shopPrefix + "-" + datePrefix + "-";
    var f1, f2 := CounterField(c1), CounterField(c2);
    CounterFieldDigits(c1);
    CounterFieldDigits(c2);
    assert (head + f1)[|head|..] == f1;
    assert (head + f2)[|head|..] == f2;
  }

  /**
   * `^P{1,4}-\d{6}-\d{3}$`, where the prefix characters P hold no lower-case
   * ASCII letter.
   */
  predicate MatchesCodePattern(code: string) {
    var n := |code|;
    12 <= n <= 15 &&
    var p := n - 11;
    NoLower(code[..p]) && code[p] == '-' && AllDigits(code[p + 1..p + 7]) &&
    code[p + 7] == '-' && AllDigits(code[p + 8..])
  }

  lemma PatternOfParts(sp: string, dp: string, f: string)
    requires 1 <= |sp| <= 4 && NoLower(sp)
    requires |dp| == 6 && AllDigits(dp)
    requires |f| == 3 && AllDigits(f)
    ensures MatchesCodePattern(sp + "-" + dp + "-" + f)
  {
    var code := sp + "-" + dp + "-" + f;
    var p := |sp|;
    assert code[..p] == sp;
    assert code[p + 1..p + 7] == dp;
    assert code[p + 8..] == f;
  }

  /** Every code issued on a valid day for counters 1..999 has the fixed shape. */
  lemma CodeMatchesPattern(active: string, d: CalendarDate, counter: int)
    requires active != [] && ValidDate(d) && 1 <= counter <= 999
    ensures MatchesCodePattern(CollectionCode(ShopPrefix(active), DatePrefix(d), counter))
  {
    ToUpperHasNoLower(active[..if |active| < 4 then |active| else 4]);
    DatePrefixDigits(d);
    CounterFieldDigits(counter);
    PatternOfParts(ShopPrefix(active), DatePrefix(d), CounterField(counter));
  }
}
