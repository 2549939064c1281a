/** The wallet screen: the withdrawal form, its acceptance check, the debit and
    the pending request it creates, the request list ordering, the details
    placeholder and the progress bar towards the minimum withdrawal. */
module WalletPage {
  import opened Account
  import opened Text

  datatype PaymentMethod = PaymentMethod(name: string, placeholder: string)

  datatype WalletConfig = WalletConfig(minWithdrawal: real, paymentMethods: seq<PaymentMethod>)

  // ---------------------------------------------------------------------------
  // `Number(amount)` for the strings a number input yields: optional white
  // space, an optional sign, a decimal mantissa and an optional exponent; the
  // empty string is 0. `None` stands for NaN.

  predicate AllDigits(s: string) {
    forall i :: 0 <= i < |s| ==> IsAsciiDigit(s[i])
  }

  function DigitsValue(s: string): nat
    requires AllDigits(s)
  {
    if s == [] then 0 else 10 * DigitsValue(s[..|s| - 1]) + (s[|s| - 1] as int - '0' as int)
  }

  function Pow10(n: nat): (p: nat)
    ensures p > 0
  {
    if n == 0 then 1 else 10 * Pow10(n - 1)
  }

  /** The index of the first character of `s` in `cs`, or `|s|`. */
  function IndexOfAny(s: string, cs: set<char>): (i: nat)
    ensures i <= |s|
    ensures forall j :: 0 <= j < i ==> s[j] !in cs
    ensures i < |s| ==> s[i] in cs
  {
    if s == [] || s[0] in cs then 0 else 1 + IndexOfAny(s[1..], cs)
  }

  /** The value of `whole.frac` in decimal notation. */
  function DecimalValue(whole: string, frac: string): real
    requires AllDigits(whole) && AllDigits(frac)
  {
    DigitsValue(whole) as real + DigitsValue(frac) as real / Pow10(|frac|) as real
  }

  /** `digits [. digits]` or `. digits`, at least one digit in all. */
  function ParseMantissa(m: string): Option<real> {
    var dot := IndexOfAny(m, {'.'});
    var whole := m[..dot];
    if dot == |m| then
      if whole != [] && AllDigits(whole) then Some(DigitsValue(whole) as real) else None
    else
      var frac := m[dot + 1..];
      if AllDigits(whole) && AllDigits(frac) && |whole| + |frac| > 0
      then Some(DecimalValue(whole, frac))
      else None
  }

  /** `[+|-] digits` */
  function ParseExponent(e: string): Option<int> {
    if e != [] && (e[0] == '+' || e[0] == '-') then
      var digits := e[1..];
      if digits != [] && AllDigits(digits) then
        var v: int := DigitsValue(digits);
        Some(if e[0] == '-' then -v else v)
      else None
    else if e != [] && AllDigits(e) then Some(DigitsValue(e))
    else None
  }

  function Scale(x: real, e: int): real {
    if e >= 0 then x * Pow10(e) as real else x / Pow10(-e) as real
  }

  function ParseUnsigned(t: string): Option<real> {
    var e := IndexOfAny(t, {'e', 'E'});
    match ParseMantissa(t[..e])
    case None => None
    case Some(m) =>
      if e == |t| then Some(m)
      else match ParseExponent(t[e + 1..])
        case None => None
        case Some(x) => Some(Scale(m, x))
  }

  function ParseNumber(s: string): (r: Option<real>)
    ensures IsBlank(s) ==> r == Some(0.0)
  {
    TrimEmptyIffBlank(s);
    var t := Trim(s);
    if t == [] then Some(0.0)
    else if t[0] == '-' then
      match ParseUnsigned(t[1..])
      case None => None
      case Some(v) => Some(-v)
    else if t[0] == '+' then ParseUnsigned(t[1..])
    else ParseUnsigned(t)
  }

  /** The decimal numeral of `n`. */
  function Numeral(n: nat): (s: string)
    ensures s != [] && AllDigits(s)
  {
    if n < 10 then [('0' as int + n) as char]
    else Numeral(n / 10) + [('0' as int + n % 10) as char]
  }

  lemma {:induction false} NumeralValue(n: nat)
    ensures DigitsValue(Numeral(n)) == n
  {
    var s := Numeral(n);
    if n >= 10 {
      NumeralValue(n / 10);
      assert s[..|s| - 1] == Numeral(n / 10);
    } else {
      assert s[..|s| - 1] == [];
    }
  }

  lemma {:induction false} DigitsHaveNoMarker(s: string, cs: set<char>)
    requires AllDigits(s) && forall c :: c in cs ==> !IsAsciiDigit(c)
    ensures IndexOfAny(s, cs) == |s|
  {
    if s != [] {
      assert IsAsciiDigit(s[0]);
      assert AllDigits(s[1..]) by {
        forall i | 0 <= i < |s[1..]| ensures IsAsciiDigit(s[1..][i]) {
          assert s[1..][i] == s[i + 1];
        }
      }
      DigitsHaveNoMarker(s[1..], cs);
    }
  }

  lemma DigitsAreTrimmed(s: string)
    requires s != [] && AllDigits(s)
    ensures Trim(s) == s
  {
    assert IsAsciiDigit(s[0]) && IsAsciiDigit(s[|s| - 1]);
    UnpaddedIsTrimmed(s);
  }

  /** A minus sign in front of a whole number negates it. */
  lemma NegatedNumeralParses(n: nat)
    ensures ParseNumber("-" + Numeral(n)) == Some(-(n as real))
  {
    var s := Numeral(n);
    var t := "-" + s;
    NumeralValue(n);
    DigitsHaveNoMarker(s, {'e', 'E'});
    DigitsHaveNoMarker(s, {'.'});
    assert s[..|s|] == s;
    assert ParseMantissa(s) == Some(n as real);
    assert IsAsciiDigit(s[|s| - 1]);
    assert t[|t| - 1] == s[|s| - 1];
    UnpaddedIsTrimmed(t);
    assert t[1..] == s;
  }

  /** A fraction is read as decimal notation; either side of the point may be
      empty, but not both. */
  lemma FractionsParse()
    ensures ParseMantissa("1.5") == Some(1.5)
    ensures ParseMantissa(".5") == Some(0.5)
    ensures ParseMantissa("5.") == Some(5.0)
  {
    assert "1.5"[..1] == "1" && "1.5"[2..] == "5";
    assert DigitsValue("1") == 1 && DigitsValue("5") == 5;
    assert ".5"[..0] == "" && ".5"[1..] == "5";
    assert "5."[..1] == "5" && "5."[2..] == "";
  }

  /** A lone point, a second point and a missing mantissa are not numbers. */
  lemma MalformedMantissaRejected()
    ensures ParseMantissa(".") == None
    ensures ParseMantissa("1.2.3") == None
    ensures ParseUnsigned("e5") == None
  {
    assert "."[..0] == "" && "."[1..] == "";
    assert "1.2.3"[2..] == "2.3" && !IsAsciiDigit("2.3"[1]);
    assert "e5"[..0] == "";
  }

  /** A positive exponent multiplies the mantissa by a power of ten. */
  lemma PositiveExponentParses()
    ensures ParseUnsigned("2e3") == Some(2000.0)
  {
    var t := "2e3";
    assert IndexOfAny(t, {'e', 'E'}) == 1;
    assert t[..1] == "2" && t[2..] == "3";
    assert IndexOfAny("2", {'.'}) == 1 && "2"[..1] == "2";
    assert ParseMantissa("2") == Some(2.0);
    assert ParseExponent("3") == Some(3);
    assert Pow10(3) == 1000;
  }

  /** A negative exponent divides the mantissa by a power of ten. */
  lemma NegativeExponentParses()
    ensures ParseUnsigned("25e-1") == Some(2.5)
  {
    var t := "25e-1";
    assert IndexOfAny(t, {'e', 'E'}) == 2;
    assert t[..2] == "25" && t[3..] == "-1";
    assert IndexOfAny("25", {'.'}) == 2 && "25"[..2] == "25";
    assert DigitsValue("25") == 25;
    assert ParseMantissa("25") == Some(25.0);
    assert "-1"[1..] == "1" && DigitsValue("1") == 1;
    assert ParseExponent("-1") == Some(-1);
    assert Pow10(1) == 10;
  }

  /** The search runs past a prefix that holds none of the characters. */
  lemma {:induction false} IndexOfAnyAppend(a: string, b: string, cs: set<char>)
    requires IndexOfAny(a, cs) == |a|
    ensures IndexOfAny(a + b, cs) == |a| + IndexOfAny(b, cs)
  {
    if a == [] {
      assert a + b == b;
    } else {
      assert a[0] !in cs;
      assert (a + b)[0] == a[0] && (a + b)[1..] == a[1..] + b;
      IndexOfAnyAppend(a[1..], b, cs);
    }
  }

  /** Input that starts and ends with a digit is read without trimming or sign. */
  lemma ParsesAsUnsigned(s: string)
    requires s != [] && IsAsciiDigit(s[0]) && IsAsciiDigit(s[|s| - 1])
    ensures ParseNumber(s) == ParseUnsigned(s)
  {
    UnpaddedIsTrimmed(s);
  }

  /** With a point in the mantissa and digits on both sides, the value is the
      whole part plus the fraction. */
  lemma MantissaSplit(m: string)
    requires IndexOfAny(m, {'.'}) < |m| && |m| > 1
    requires AllDigits(m[..IndexOfAny(m, {'.'})]) && AllDigits(m[IndexOfAny(m, {'.'}) + 1..])
    ensures var dot := IndexOfAny(m, {'.'});
      ParseMantissa(m) == Some(DecimalValue(m[..dot], m[dot + 1..]))
  {
  }

  /** Digits, a point and digits: the point splits the whole and the fraction. */
  lemma MantissaWithFraction(n: string, d: string)
    requires AllDigits(n) && AllDigits(d) && |n| + |d| > 0
    ensures ParseMantissa(n + "." + d) == Some(DecimalValue(n, d))
  {
    var rest := "." + d;
    var m := n + rest;
    assert m == n + "." + d;
    DigitsHaveNoMarker(n, {'.'});
    IndexOfAnyAppend(n, rest, {'.'});
    assert rest[0] == '.';
    assert IndexOfAny(rest, {'.'}) == 0;
    var dot := IndexOfAny(m, {'.'});
    assert dot == |n| < |m|;
    assert m[..dot] == n && m[dot + 1..] == d;
    MantissaSplit(m);
  }

  /** A mantissa without an exponent marker is read as the mantissa. */
  lemma UnsignedWithoutExponent(t: string)
    requires IndexOfAny(t, {'e', 'E'}) == |t|
    ensures ParseUnsigned(t) == ParseMantissa(t)
  {
    assert t[..|t|] == t;
  }

  /** A mantissa, an `e` and an exponent: the mantissa scaled by the exponent. */
  lemma UnsignedWithExponent(m: string, x: string)
    requires IndexOfAny(m, {'e', 'E'}) == |m|
    requires ParseMantissa(m).Some? && ParseExponent(x).Some?
    ensures ParseUnsigned(m + "e" + x) == Some(Scale(ParseMantissa(m).value, ParseExponent(x).value))
  {
    var t := m + "e" + x;
    IndexOfAnyAppend(m, "e" + x, {'e', 'E'});
    assert ("e" + x)[0] == 'e';
    assert t == m + ("e" + x);
    assert t[..|m|] == m && t[|m| + 1..] == x;
  }

  /** Scaling by a power of ten multiplies for a non-negative exponent and
      divides for a negative one. */
  lemma ScaleValue(x: real, k: nat)
    ensures Scale(x, k) == x * Pow10(k) as real
    ensures Scale(x, -(k as int)) == if k == 0 then x else x / Pow10(k) as real
  {
  }

  /** An exponent is a digit string with an optional sign. */
  lemma ExponentDigits(m: string)
    requires m != [] && AllDigits(m)
    ensures ParseExponent(m) == Some(DigitsValue(m))
    ensures ParseExponent("-" + m) == Some(-(DigitsValue(m) as int))
  {
    assert IsAsciiDigit(m[0]);
    assert ("-" + m)[0] == '-' && ("-" + m)[1..] == m;
  }

  /** The decimal value of a whole number's numeral followed by a fraction. */
  lemma DecimalOfNumeral(a: nat, d: string)
    requires AllDigits(d)
    ensures DecimalValue(Numeral(a), d) == a as real + DigitsValue(d) as real / Pow10(|d|) as real
  {
    NumeralValue(a);
  }

  /** A whole part, a point and a digit string read as the decimal fraction. */
  lemma FractionParses(a: nat, d: string)
    requires d != [] && AllDigits(d)
    ensures ParseNumber(Numeral(a) + "." + d) == Some(DecimalValue(Numeral(a), d))
  {
    var n := Numeral(a);
    var s := n + "." + d;
    MantissaWithFraction(n, d);
    FractionHasNoExponent(n, d);
    UnsignedWithoutExponent(s);
    assert s[0] == n[0] && IsAsciiDigit(n[0]);
    assert s[|s| - 1] == d[|d| - 1] && IsAsciiDigit(d[|d| - 1]);
    ParsesAsUnsigned(s);
  }

  lemma FractionHasNoExponent(n: string, d: string)
    requires AllDigits(n) && AllDigits(d)
    ensures IndexOfAny(n + "." + d, {'e', 'E'}) == |n + "." + d|
  {
    var rest := "." + d;
    assert n + "." + d == n + rest;
    DigitsHaveNoMarker(n, {'e', 'E'});
    DigitsHaveNoMarker(d, {'e', 'E'});
    assert IndexOfAny(".", {'e', 'E'}) == 1;
    IndexOfAnyAppend(".", d, {'e', 'E'});
    IndexOfAnyAppend(n, rest, {'e', 'E'});
  }


  /** A whole mantissa with a non-negative whole exponent reads as the mantissa
      scaled up by that power of ten (`ScaleValue`). */
  lemma ExponentParses(a: nat, k: nat)
    ensures ParseNumber(Numeral(a) + "e" + Numeral(k)) == Some(Scale(a as real, k))
  {
    var n := Numeral(a);
    var m := Numeral(k);
    var s := n + "e" + m;
    NumeralValue(a);
    NumeralValue(k);
    DigitsHaveNoMarker(n, {'e', 'E'});
    DigitsHaveNoMarker(n, {'.'});
    assert n[..|n|] == n;
    assert ParseMantissa(n) == Some(a as real);
    ExponentDigits(m);
    UnsignedWithExponent(n, m);
    assert s[0] == n[0] && IsAsciiDigit(n[0]);
    assert s[|s| - 1] == m[|m| - 1] && IsAsciiDigit(m[|m| - 1]);
    ParsesAsUnsigned(s);
  }

  /** A whole mantissa with a negative whole exponent reads as the mantissa
      scaled down by that power of ten (`ScaleValue`). */
  lemma NegativeExponentParsesAll(a: nat, k: nat)
    requires k > 0
    ensures ParseNumber(Numeral(a) + "e-" + Numeral(k)) == Some(Scale(a as real, -(k as int)))
  {
    var n := Numeral(a);
    var m := Numeral(k);
    var x := "-" + m;
    var s := n + "e" + x;
    assert s == n + "e-" + m;
    NumeralValue(a);
    NumeralValue(k);
    DigitsHaveNoMarker(n, {'e', 'E'});
    DigitsHaveNoMarker(n, {'.'});
    assert n[..|n|] == n;
    assert ParseMantissa(n) == Some(a as real);
    ExponentDigits(m);
    UnsignedWithExponent(n, x);
    assert s[0] == n[0] && IsAsciiDigit(n[0]);
    assert s[|s| - 1] == m[|m| - 1] && IsAsciiDigit(m[|m| - 1]);
    ParsesAsUnsigned(s);
  }

  /** A whole number typed into the amount field reads back as that number. */
  lemma NumeralParses(n: nat)
    ensures ParseNumber(Numeral(n)) == Some(n as real)
  {
    var s := Numeral(n);
    NumeralValue(n);
    DigitsAreTrimmed(s);
    DigitsHaveNoMarker(s, {'e', 'E'});
    DigitsHaveNoMarker(s, {'.'});
    assert s[..|s|] == s;
    assert ParseMantissa(s) == Some(n as real);
    assert IsAsciiDigit(s[0]);
    assert ParseNumber(s) == ParseUnsigned(s);
  }

  // ---------------------------------------------------------------------------
  // The withdrawal request.

  /** The opposite of the rejection test `isNaN(amt) || amt < min || amt > balance || !details.trim()`. */
  predicate Acceptable(amt: Option<real>, minWithdrawal: real, balance: real, details: string) {
    amt.Some? && !(amt.value < minWithdrawal) && !(amt.value > balance) && Trim(details) != []
  }

  /** A request is accepted exactly when the amount is a number between the
      minimum and the balance and the details are not all white space. */
  lemma AcceptableIff(amt: Option<real>, minWithdrawal: real, balance: real, details: string)
    ensures Acceptable(amt, minWithdrawal, balance, details)
      <==> amt.Some? && minWithdrawal <= amt.value <= balance && !IsBlank(details)
  {
    TrimEmptyIffBlank(details);
  }

  /** The stored state after `handleWithdraw` at server time `now`: store call
      0 is the balance update by `-amt`, store call 1 adds the pending request. */
  function WithdrawOutcome(u: UserData, amt: Option<real>, minWithdrawal: real, methodName: string,
                           details: string, now: int, backend: Backend): UserData
  {
    if !Acceptable(amt, minWithdrawal, u.balance, details) || !backend.Completes(0) then u
    else
      var debited := Credited(u, -amt.value, Withdrawal, "Payout: " + methodName);
      if backend.Completes(1)
      then debited.(withdrawals := debited.withdrawals + [WithdrawalRequest(amt.value, methodName, details, Pending, Some(now))])
      else debited
  }

  /** The store side of `handleWithdraw` for the parsed amount `amt`. */
  method Withdraw(doc: UserDoc, amt: Option<real>, minWithdrawal: real, methodName: string,
                  details: string, now: int, backend: Backend)
    modifies doc
    ensures doc.Data() == WithdrawOutcome(old(doc.Data()), amt, minWithdrawal, methodName, details, now, backend)
  {
    if !Acceptable(amt, minWithdrawal, doc.balance, details) { return; }
    if !backend.Completes(0) { return; }
    doc.UpdateBalance(-amt.value, Withdrawal, "Payout: " + methodName);
    if !backend.Completes(1) { return; }
    doc.AddWithdrawal(WithdrawalRequest(amt.value, methodName, details, Pending, Some(now)));
  }

  /** A rejected request changes nothing. */
  lemma RejectedChangesNothing(u: UserData, amt: Option<real>, minWithdrawal: real, methodName: string,
                               details: string, now: int, backend: Backend)
    requires !Acceptable(amt, minWithdrawal, u.balance, details)
    ensures WithdrawOutcome(u, amt, minWithdrawal, methodName, details, now, backend) == u
  {
  }

  /** An accepted request debits exactly the amount, so the balance stays
      non-negative, and appends one pending request with the same amount,
      method and details. */
  lemma AcceptedNeverOverdraws(u: UserData, amt: Option<real>, minWithdrawal: real, methodName: string,
                               details: string, now: int)
    requires Acceptable(amt, minWithdrawal, u.balance, details)
    ensures var v := WithdrawOutcome(u, amt, minWithdrawal, methodName, details, now, Reliable);
      && v.balance == u.balance - amt.value
      && v.balance >= 0.0
      && v.ledger == u.ledger + [LedgerEntry(-amt.value, Withdrawal, "Payout: " + methodName)]
      && v.withdrawals == u.withdrawals + [WithdrawalRequest(amt.value, methodName, details, Pending, Some(now))]
  {
  }

  lemma KeepsLedgerConsistent(u: UserData, amt: Option<real>, minWithdrawal: real, methodName: string,
                              details: string, now: int, backend: Backend)
    requires LedgerConsistent(u)
    ensures LedgerConsistent(WithdrawOutcome(u, amt, minWithdrawal, methodName, details, now, backend))
  {
    if Acceptable(amt, minWithdrawal, u.balance, details) && backend.Completes(0) {
      var debited := Credited(u, -amt.value, Withdrawal, "Payout: " + methodName);
      CreditedKeepsLedgerConsistent(u, -amt.value, Withdrawal, "Payout: " + methodName);
      var v := WithdrawOutcome(u, amt, minWithdrawal, methodName, details, now, backend);
      assert v.balance == debited.balance && v.ledger == debited.ledger;
    }
  }

  /** The cleared amount field reads as 0, so with a positive minimum a second
      submit of the cleared form is rejected. */
  lemma ClearedFormRejected(balance: real, minWithdrawal: real, details: string)
    requires minWithdrawal > 0.0
    ensures ParseNumber("") == Some(0.0)
    ensures !Acceptable(ParseNumber(""), minWithdrawal, balance, details)
  {
  }

  // ---------------------------------------------------------------------------
  // The request list, newest first.

  /** `timestamp?.seconds || 0` */
  function TimestampKey(w: WithdrawalRequest): int {
    match w.timestamp
    case None => 0
    case Some(s) => s
  }

  predicate NewestFirst(ws: seq<WithdrawalRequest>) {
    forall i, j :: 0 <= i < j < |ws| ==> TimestampKey(ws[i]) >= TimestampKey(ws[j])
  }

  function InsertNewestFirst(w: WithdrawalRequest, ws: seq<WithdrawalRequest>): (r: seq<WithdrawalRequest>)
    requires NewestFirst(ws)
    ensures NewestFirst(r)
    ensures multiset(r) == multiset(ws) + multiset{w}
  {
    if ws == [] || TimestampKey(w) >= TimestampKey(ws[0]) then
      assert ws == [] || TimestampKey(w) >= TimestampKey(ws[0]);
      [w] + ws
    else
      var rest := InsertNewestFirst(w, ws[1..]);
      assert ws == [ws[0]] + ws[1..];
      HeadBoundsInsert(w, ws, rest);
      [ws[0]] + rest
  }

  /** The head of a sorted list bounds what the insertion builds from its tail. */
  lemma HeadBoundsInsert(w: WithdrawalRequest, ws: seq<WithdrawalRequest>, rest: seq<WithdrawalRequest>)
    requires ws != [] && NewestFirst(ws) && NewestFirst(rest)
    requires TimestampKey(w) < TimestampKey(ws[0])
    requires multiset(rest) == multiset(ws[1..]) + multiset{w}
    ensures NewestFirst([ws[0]] + rest)
  {
    forall k | 0 <= k < |rest| ensures TimestampKey(rest[k]) <= TimestampKey(ws[0]) {
      assert rest[k] in multiset(rest);
      if rest[k] != w {
        assert rest[k] in multiset(ws[1..]);
        var m :| 0 <= m < |ws[1..]| && ws[1..][m] == rest[k];
        assert ws[m + 1] == rest[k];
      }
    }
    var r := [ws[0]] + rest;
    forall i, j | 0 <= i < j < |r| ensures TimestampKey(r[i]) >= TimestampKey(r[j]) {
      if i == 0 {
        assert r[j] == rest[j - 1];
      } else {
        assert r[i] == rest[i - 1] && r[j] == rest[j - 1];
      }
    }
  }

  /** The snapshot's requests sorted by the comparator
      `(b.timestamp?.seconds || 0) - (a.timestamp?.seconds || 0)`. */
  function SortNewestFirst(ws: seq<WithdrawalRequest>): (r: seq<WithdrawalRequest>)
    ensures NewestFirst(r)
    ensures multiset(r) == multiset(ws)
  {
    if ws == [] then []
    else
      assert ws == [ws[0]] + ws[1..];
      InsertNewestFirst(ws[0], SortNewestFirst(ws[1..]))
  }

  // ---------------------------------------------------------------------------
  // Form defaults and the progress bar.

  /** `config.paymentMethods[0]?.name || ''` */
  function InitialMethod(methods: seq<PaymentMethod>): (name: string)
    ensures methods == [] ==> name == ""
    ensures methods != [] ==> name == methods[0].name
  {
    if methods == [] then "" else methods[0].name
  }

  /** The index of the first method called `name`, or `|methods|`. */
  function FindMethod(methods: seq<PaymentMethod>, name: string): (i: nat)
    ensures i <= |methods|
    ensures forall j :: 0 <= j < i ==> methods[j].name != name
    ensures i < |methods| ==> methods[i].name == name
  {
    if methods == [] || methods[0].name == name then 0 else 1 + FindMethod(methods[1..], name)
  }

  /** `paymentMethods.find(m => m.name === method)?.placeholder || "Enter details"` */
  function Placeholder(methods: seq<PaymentMethod>, name: string): (p: string)
    ensures p != []
    ensures p == "Enter details" || exists m :: m in methods && m.name == name && m.placeholder == p
    ensures forall i :: 0 <= i < |methods| && methods[i].name == name
                          && (forall j :: 0 <= j < i ==> methods[j].name != name) ==>
              p == if methods[i].placeholder != "" then methods[i].placeholder else "Enter details"
  {
    var i := FindMethod(methods, name);
    if i < |methods| && methods[i].placeholder != "" then methods[i].placeholder else "Enter details"
  }

  /** The form starts on the first method, and shows that method's placeholder. */
  lemma InitialPlaceholder(methods: seq<PaymentMethod>)
    requires methods != []
    ensures Placeholder(methods, InitialMethod(methods))
         == if methods[0].placeholder != "" then methods[0].placeholder else "Enter details"
  {
  }

  /** A method that is not listed gets the generic placeholder. */
  lemma UnknownMethodPlaceholder(methods: seq<PaymentMethod>, name: string)
    requires forall m :: m in methods ==> m.name != name
    ensures Placeholder(methods, name) == "Enter details"
  {
    var i := FindMethod(methods, name);
    if i < |methods| {
      assert methods[i] in methods;
    }
  }

  /** The progress bar width `Math.min(balance / minWithdrawal * 100, 100)`, in
      percent; `None` when it is not a finite number. */
  function ProgressWidth(balance: real, minWithdrawal: real): (r: Option<real>)
    ensures r.Some? ==> r.value <= 100.0
    ensures minWithdrawal > 0.0 && balance >= 0.0 ==> r.Some? && r.value >= 0.0
    ensures minWithdrawal > 0.0 ==> (r == Some(100.0) <==> balance >= minWithdrawal)
    ensures minWithdrawal > 0.0 && balance < minWithdrawal ==>
              r.Some? && r.value * minWithdrawal == balance * 100.0
    ensures minWithdrawal == 0.0 ==> r == if balance > 0.0 then Some(100.0) else None
    ensures minWithdrawal < 0.0 ==> r.Some? && (r == Some(100.0) <==> balance <= minWithdrawal)
    ensures minWithdrawal < 0.0 && balance > minWithdrawal ==> r.value * minWithdrawal == balance * 100.0
  {
    if minWithdrawal == 0.0 then (if balance > 0.0 then Some(100.0) else None)
    else
      PercentOf(balance, minWithdrawal);
      var pct := balance / minWithdrawal * 100.0;
      Some(if pct < 100.0 then pct else 100.0)
  }

  /** `b / m * 100` reaches 100 exactly when `b` reaches `m` in the direction of
      `m`'s sign. */
  lemma PercentOf(b: real, m: real)
    requires m != 0.0
    ensures (b / m * 100.0) * m == b * 100.0
    ensures m > 0.0 ==> (b / m * 100.0 >= 100.0 <==> b >= m)
    ensures m < 0.0 ==> (b / m * 100.0 >= 100.0 <==> b <= m)
    ensures m > 0.0 && b >= 0.0 ==> b / m * 100.0 >= 0.0
  {
    var q := b / m;
    assert q * m == b;
    assert (q * 100.0) * m == (q * m) * 100.0;
    if m > 0.0 {
      assert q >= 1.0 ==> q * m >= 1.0 * m;
      assert q < 1.0 ==> q * m < 1.0 * m;
      assert b >= 0.0 ==> q >= 0.0;
    } else {
      assert q >= 1.0 ==> q * m <= 1.0 * m;
      assert q < 1.0 ==> q * m > 1.0 * m;
    }
  }

  /** With a positive minimum the bar never shrinks as the balance grows. */
  lemma ProgressMonotone(b1: real, b2: real, minWithdrawal: real)
    requires minWithdrawal > 0.0 && b1 <= b2
    ensures ProgressWidth(b1, minWithdrawal).value <= ProgressWidth(b2, minWithdrawal).value
  {
    var p1 := b1 / minWithdrawal * 100.0;
    var p2 := b2 / minWithdrawal * 100.0;
    DivMonotone(b1, b2, minWithdrawal);
  }

  lemma DivMonotone(x: real, y: real, d: real)
    requires d > 0.0 && x <= y
    ensures x / d * 100.0 <= y / d * 100.0
  {
    assert (y - x) / d >= 0.0;
    assert y / d - x / d == (y - x) / d;
  }

  // ---------------------------------------------------------------------------

  /** The form's fields. */
  class WalletForm {
    var amount: string
    var methodName: string
    var details: string

    constructor (methods: seq<PaymentMethod>)
      ensures amount == "" && details == "" && methodName == InitialMethod(methods)
    {
      amount := "";
      details := "";
      methodName := if methods == [] then "" else methods[0].name;
    }

    /** `handleWithdraw` at server time `now`. */
    method HandleWithdraw(doc: UserDoc, config: WalletConfig, now: int, backend: Backend) returns (accepted: bool)
      modifies this, doc
      ensures accepted == Acceptable(ParseNumber(old(amount)), config.minWithdrawal, old(doc.balance), old(details))
      ensures doc.Data() == WithdrawOutcome(old(doc.Data()), ParseNumber(old(amount)), config.minWithdrawal,
                                            methodName, old(details), now, backend)
      ensures methodName == old(methodName)
      ensures accepted && backend.Completes(1) ==> amount == "" && details == ""
      ensures !(accepted && backend.Completes(1)) ==> amount == old(amount) && details == old(details)
    {
      var amt := ParseNumber(amount);
      accepted := Acceptable(amt, config.minWithdrawal, doc.balance, details);
      Withdraw(doc, amt, config.minWithdrawal, methodName, details, now, backend);
      if accepted && backend.Completes(1) {
        amount := "";
        details := "";
      }
    }
  }
}
