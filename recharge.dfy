/** Credit recharges (`recarga.js`): `create-pix` validates the amount and
    builds a transaction id that carries the seller and the amount in cents;
    `simulate-pix-payment` takes the id apart again, checks it belongs to the
    caller, and credits the seller's `pending_balance`. */
module Recharge {
  import opened Base
  import opened Text

  const MinAmount: real := 5.0
  const Prefix: string := "RECARGA"
  const Separator: char := '_'

  datatype RechargeError = InvalidAmount | InvalidId | Forbidden | UserNotFound | CreditFailed

  /** `(amount * 100).toFixed(0)` for a non-negative amount: the nearest whole
      number of cents, a half rounded up. */
  function Cents(amount: real): (c: nat)
    requires amount >= 0.0
    ensures c as real - 0.5 <= amount * 100.0 < c as real + 0.5
  {
    (amount * 100.0 + 0.5).Floor
  }

  /** `RECARGA_${sellerId}_${cents}`; the seller id is a `users` key, never negative. */
  function TransactionId(sellerId: nat, cents: nat): string {
    Join([Prefix, NatToString(sellerId), NatToString(cents)], Separator)
  }

  /** `POST /create-pix`: `amount` is `parseFloat(amount)` (`None` for `NaN`);
      less than 5.00 is refused, otherwise the id for the amount in cents. */
  function CreatePix(sellerId: nat, amount: Option<real>): (r: Result<string, RechargeError>)
    ensures r.Err? <==> amount.None? || amount.value < MinAmount
    ensures r.Err? ==> r.error == InvalidAmount
    ensures r.Ok? ==> r.value == TransactionId(sellerId, Cents(amount.value))
  {
    if amount.None? || amount.value < MinAmount then Err(InvalidAmount)
    else Ok(TransactionId(sellerId, Cents(amount.value)))
  }

  /** JavaScript's `Number(t)` as `!=` applies it to the text of a seller id:
      surrounding white space is ignored and blank text is 0; `0b`, `0o` and
      `0x` literals are read in their base; otherwise an optionally signed
      decimal literal. `None` stands for `NaN`, and for `Infinity`, which
      equals no user id either. */
  function NumberOfText(t: string): (r: Option<real>)
    ensures IsDigits(t) && t != [] ==> r == Some(DigitsValue(t) as real)
    ensures IsBlank(t) ==> r == Some(0.0)
    ensures r.Some? ==> IsBlank(t) || HasDigit(t)
  {
    var u := Trim(t);
    assert IsDigits(t) && t != [] ==> u == t by {
      if IsDigits(t) && t != [] { assert IsDigit(t[0]) && IsDigit(t[|t| - 1]); }
    }
    NumberOfTrimmed(u)
  }

  /** `Number` of text without surrounding white space. */
  function NumberOfTrimmed(u: string): (r: Option<real>)
    ensures u == [] ==> r == Some(0.0)
    ensures IsDigits(u) && u != [] ==> r == Some(DigitsValue(u) as real)
    ensures r.Some? && u != [] ==> HasDigit(u)
  {
    if u == [] then Some(0.0)
    else if RadixLiteral(u) then RadixNumber(u)
    else SignedDecimal(u)
  }

  /** `0b`, `0o`, `0x` (or upper case) in front. */
  predicate RadixLiteral(u: string) { |u| >= 2 && u[0] == '0' && RadixOf(u[1]) > 0 }

  /** A `0b`, `0o` or `0x` literal: at least one digit of its base after the prefix. */
  function RadixNumber(u: string): (r: Option<real>)
    requires RadixLiteral(u)
    ensures r.Some? ==> HasDigit(u) && r.value >= 0.0
    ensures r.Some? <==> |u| > 2 && InRadix(u[2..], RadixOf(u[1]))
  {
    var digits := u[2..];
    assert IsDigit(u[0]);
    if digits != [] && InRadix(digits, RadixOf(u[1])) then Some(RadixValue(digits, RadixOf(u[1])) as real) else None
  }

  /** An optionally signed decimal literal. */
  function SignedDecimal(u: string): (r: Option<real>)
    requires u != []
    ensures r.Some? ==> HasDigit(u)
    ensures IsDigits(u) ==> r == Some(DigitsValue(u) as real)
    ensures u[0] == '-' && |u| > 1 && IsDigits(u[1..]) ==> r == Some(-(DigitsValue(u[1..]) as real))
    ensures u[0] != '-' && u[0] != '+' ==> r == DecimalValue(u)
  {
    var signed := u[0] == '-' || u[0] == '+';
    var body := if signed then u[1..] else u;
    var v := DecimalValue(body);
    assert v.Some? ==> HasDigit(u) by {
      if v.Some? {
        var k :| 0 <= k < |body| && IsDigit(body[k]);
        assert body[k] == u[if signed then k + 1 else k];
      }
    }
    if v.None? then None else if u[0] == '-' then Some(-v.value) else v
  }

  /** `sellerId != req.user.id`: the text is compared with the number after conversion. */
  predicate LooselyDiffers(sellerText: string, userId: int) {
    NumberOfText(sellerText) != Some(userId as real)
  }

  /** What an id holds: the seller's text and `parseInt(cents) / 100` (`None` for `NaN`). */
  datatype Parsed = Parsed(sellerText: string, amount: Option<real>)

  /** `transaction_id.split('_')`: exactly three parts, the first `RECARGA`. */
  function ParseTransactionId(txId: string): (r: Result<Parsed, RechargeError>)
    ensures r.Err? <==> |Split(txId, Separator)| != 3 || Split(txId, Separator)[0] != Prefix
    ensures r.Err? ==> r.error == InvalidId
    ensures r.Ok? ==> r.value.sellerText == Split(txId, Separator)[1]
  {
    var parts := Split(txId, Separator);
    if |parts| != 3 || parts[0] != Prefix then Err(InvalidId)
    else
      var cents := ParseInt(parts[2]);
      Ok(Parsed(parts[1], if cents.Some? then Some(cents.value as real / 100.0) else None))
  }

  /** The white space MySQL skips in front of a number: space, tab, line
      feed, line tabulation, form feed and carriage return. */
  predicate IsSqlSpace(c: char) {
    c == ' ' || c == '\t' || c == '\n' || c == '\U{000B}' || c == '\U{000C}' || c == '\r'
  }

  /** The number of MySQL white-space characters `s` starts with. */
  function SqlSpacesBefore(s: string): (n: nat)
    ensures n <= |s| && (n == |s| || !IsSqlSpace(s[n]))
    ensures forall i :: 0 <= i < n ==> IsSqlSpace(s[i])
  {
    if s != [] && IsSqlSpace(s[0]) then 1 + SqlSpacesBefore(s[1..]) else 0
  }

  /** The value of the longest of the first `n` prefixes of `t` that is an
      optionally signed decimal literal; 0 when none is. */
  function LongestDecimal(t: string, n: nat): (r: real)
    requires n <= |t|
    ensures r == 0.0 || exists k :: 0 < k <= n && SignedDecimal(t[..k]) == Some(r)
    ensures n > 0 && SignedDecimal(t[..n]).Some? ==> r == SignedDecimal(t[..n]).value
  {
    if n == 0 then 0.0
    else
      match SignedDecimal(t[..n])
      case Some(v) => v
      case None => LongestDecimal(t, n - 1)
  }

  /** The first `j` characters of `t` form an optionally signed decimal literal. */
  predicate ReadsAt(t: string, j: nat)
    requires 0 < j <= |t|
  {
    var ok := SignedDecimal(t[..j]).Some?;
    ok
  }

  /** `LongestDecimal` reads the longest prefix: `k` is the length of the
      longest of the first `n` prefixes that is a literal (0 when none is), and
      the value is that prefix's, or 0. */
  lemma {:induction false} LongestDecimalIsLongest(t: string, n: nat) returns (k: nat)
    requires n <= |t|
    ensures k <= n && (k > 0 ==> ReadsAt(t, k))
    ensures forall j :: k < j <= n ==> !ReadsAt(t, j)
    ensures k == 0 ==> LongestDecimal(t, n) == 0.0
    ensures k > 0 ==> SignedDecimal(t[..k]) == Some(LongestDecimal(t, n))
    decreases n
  {
    if n == 0 {
      k := 0;
    } else if ReadsAt(t, n) {
      k := n;
    } else {
      k := LongestDecimalIsLongest(t, n - 1);
      LongestDecimalSkips(t, n, k);
    }
  }

  /** A prefix of length `n` that is not a literal leaves the longest one shorter. */
  lemma LongestDecimalSkips(t: string, n: nat, k: nat)
    requires 0 < n <= |t| && !ReadsAt(t, n)
    requires k <= n - 1 && (k > 0 ==> ReadsAt(t, k))
    requires forall j :: k < j <= n - 1 ==> !ReadsAt(t, j)
    requires k == 0 ==> LongestDecimal(t, n - 1) == 0.0
    requires k > 0 ==> SignedDecimal(t[..k]) == Some(LongestDecimal(t, n - 1))
    ensures forall j :: k < j <= n ==> !ReadsAt(t, j)
    ensures k == 0 ==> LongestDecimal(t, n) == 0.0
    ensures k > 0 ==> SignedDecimal(t[..k]) == Some(LongestDecimal(t, n))
  {
  }

  /** MySQL's reading of the text bound to `WHERE id = ?` when it is compared
      with the integer `id` column: leading white space skipped, then the
      longest decimal prefix; text with no such prefix reads as 0. */
  function SqlNumber(s: string): real {
    var t := s[SqlSpacesBefore(s)..];
    LongestDecimal(t, |t|)
  }

  /** The `users` row `WHERE id = <text>` selects and updates: the integer the
      text reads as, if it is one. */
  function CreditTarget(sellerText: string): (r: Option<int>)
    ensures r.Some? <==> SqlNumber(sellerText).Floor as real == SqlNumber(sellerText)
    ensures r.Some? ==> r.value as real == SqlNumber(sellerText)
  {
    var v := SqlNumber(sellerText);
    if v.Floor as real == v then Some(v.Floor) else None
  }

  /** `Number` ignores the white space around a text. */
  lemma NumberIgnoresSpaceAround(t: string)
    ensures NumberOfText(t) == NumberOfText(Trim(t))
  {
    var u := Trim(t);
    if u != [] {
      assert Trim(u) == u;
    } else {
      assert IsBlank(u) && Trim(u) == u;
    }
  }

  /** A minus sign in front of digits negates their value. */
  lemma NumberOfNegative(u: string)
    requires |u| > 1 && u[0] == '-' && IsDigits(u[1..])
    ensures NumberOfText(u) == Some(-(DigitsValue(u[1..]) as real))
  {
    assert IsDigit(u[1..][|u| - 2]);
    assert Trim(u) == u;
  }

  /** `Number()` of a rendered id gives the id back. */
  lemma NatToStringNumber(n: nat)
    ensures NumberOfText(NatToString(n)) == Some(n as real)
  {
    var s := NatToString(n);
    assert IsDigits(s) && s != [] && DigitsValue(s) == n;
  }

  /** MySQL reads a rendered id as that id: the row credited is the seller's. */
  lemma CreditTargetOfRendering(n: nat)
    ensures CreditTarget(NatToString(n)) == Some(n)
  {
    var s := NatToString(n);
    assert IsDigit(s[0]) && SqlSpacesBefore(s) == 0;
    assert s[0..] == s && s[..|s|] == s;
  }

  /** `Number("0x5")` is 5. */
  lemma HexNumber()
    ensures NumberOfText("0x5") == Some(5.0)
  {
    assert Trim("0x5") == "0x5";
    assert RadixLiteral("0x5") && RadixOf('x') == 16;
    assert "0x5"[2..] == "5";
    assert InRadix("5", 16) && RadixValue("5", 16) == 5;
  }

  /** `0x5` and `0x` are not decimal literals, signed or not. */
  lemma HexNotDecimal(t: string)
    requires t == "0x5" || t == "0x"
    ensures SignedDecimal(t).None?
  {
    assert ExponentMark(t) == |t| && t[..|t|] == t;
    assert IndexOf(t, '.') == |t|;
    assert !IsDigit(t[1]);
    assert DecimalValue(t).None?;
  }

  /** Of the prefixes of `0x5`, only `0` is a decimal literal. */
  lemma HexLongestDecimal()
    ensures LongestDecimal("0x5", 3) == 0.0
  {
    var t := "0x5";
    assert t[..1] == "0";
    assert LongestDecimal(t, 1) == 0.0;
    assert t[..2] == "0x";
    HexNotDecimal("0x");
    assert LongestDecimal(t, 2) == 0.0;
    assert t[..3] == "0x5";
    HexNotDecimal("0x5");
  }

  /** MySQL reads `0x5` as 0: only its first character is a decimal. */
  lemma HexSqlNumber()
    ensures SqlNumber("0x5") == 0.0
  {
    var t := "0x5";
    assert SqlSpacesBefore(t) == 0 && t[0..] == t;
    HexLongestDecimal();
  }

  /** `0x5` passes the ownership check of user 5, since `Number("0x5")` is 5,
      but MySQL reads it as 0: the row looked up and credited is user 0's. */
  lemma HexSellerCreditsUserZero()
    ensures !LooselyDiffers("0x5", 5)
    ensures CreditTarget("0x5") == Some(0)
  {
    HexNumber();
    HexSqlNumber();
  }

  /** An id that splits into `RECARGA`, `0x5` and `500` (such as
      `RECARGA_0x5_500`), paid by user 5, passes both checks with 5.00, and
      the credit then goes to the row MySQL reads `0x5` as: user 0, not
      user 5. */
  lemma HexIdPassesCheck(txId: string)
    requires Split(txId, Separator) == [Prefix, "0x5", "500"]
    ensures PaymentCheck(txId, 5) == Ok(Parsed("0x5", Some(5.0)))
    ensures CreditTarget(PaymentCheck(txId, 5).value.sellerText) == Some(0)
  {
    assert ParseInt("500") == Some(500) by {
      var t: string := "500";
      assert IsDigits(t);
      assert t[..2] == "50" && t[..2][..1] == "5" && t[..2][..1][..0] == [];
      assert DigitsValue(t[..2][..1]) == 5;
      assert DigitsValue(t[..2]) == 50;
      assert DigitsValue(t) == 500;
    }
    ParseOfParts(txId, "0x5", "500", 500);
    HexSellerCreditsUserZero();
  }

  /** The id splits back into its three parts. */
  lemma TransactionIdParts(sellerId: nat, cents: nat)
    ensures Split(TransactionId(sellerId, cents), Separator) == [Prefix, NatToString(sellerId), NatToString(cents)]
  {
    var parts := [Prefix, NatToString(sellerId), NatToString(cents)];
    assert Separator !in Prefix;
    assert Separator !in NatToString(sellerId) by {
      assert IsDigits(NatToString(sellerId));
    }
    assert Separator !in NatToString(cents) by {
      assert IsDigits(NatToString(cents));
    }
    assert forall k :: 0 <= k < |parts| ==> Separator !in parts[k];
    SplitJoin(parts, Separator);
  }

  /** An id that splits into the prefix, a seller and a whole number of cents
      parses to that seller and that amount. */
  lemma ParseOfParts(txId: string, sellerText: string, centsText: string, cents: int)
    requires Split(txId, Separator) == [Prefix, sellerText, centsText]
    requires ParseInt(centsText) == Some(cents)
    ensures ParseTransactionId(txId) == Ok(Parsed(sellerText, Some(cents as real / 100.0)))
  {
    var parts := Split(txId, Separator);
    assert |parts| == 3 && parts[0] == Prefix && parts[1] == sellerText && parts[2] == centsText;
  }

  /** Parsing the id of a seller and an amount in cents gives them back. */
  lemma ParseOfTransactionId(sellerId: nat, cents: nat)
    ensures ParseTransactionId(TransactionId(sellerId, cents)) == Ok(Parsed(NatToString(sellerId), Some(cents as real / 100.0)))
  {
    TransactionIdParts(sellerId, cents);
    ParseIntOfRendering(cents);
    ParseOfParts(TransactionId(sellerId, cents), NatToString(sellerId), NatToString(cents), cents);
  }

  /** The id `create-pix` hands out parses back to the same seller, who alone
      passes the ownership check and whose row the credit goes to, and to the
      amount in cents, within half a cent of the amount asked for. */
  lemma TransactionIdRoundTrip(sellerId: nat, amount: real, userId: int)
    requires amount >= MinAmount
    ensures var r := CreatePix(sellerId, Some(amount));
      r.Ok? && ParseTransactionId(r.value).Ok?
    ensures var p := ParseTransactionId(CreatePix(sellerId, Some(amount)).value).value;
      p.sellerText == NatToString(sellerId)
      && (LooselyDiffers(p.sellerText, userId) <==> userId != sellerId)
      && CreditTarget(p.sellerText) == Some(sellerId)
      && p.amount.Some? && amount - 0.005 < p.amount.value <= amount + 0.005
  {
    var cents := Cents(amount);
    assert CreatePix(sellerId, Some(amount)) == Ok(TransactionId(sellerId, cents));
    ParseOfTransactionId(sellerId, cents);
    OnlyOwnerMatches(sellerId, userId);
    CreditTargetOfRendering(sellerId);
    CentsWithinHalf(amount);
  }

  lemma OnlyOwnerMatches(sellerId: nat, userId: int)
    ensures LooselyDiffers(NatToString(sellerId), userId) <==> userId != sellerId
  {
    NatToStringNumber(sellerId);
  }

  lemma CentsWithinHalf(amount: real)
    requires amount >= 0.0
    ensures amount - 0.005 < Cents(amount) as real / 100.0 <= amount + 0.005
  {
  }

  /** A seller part without a single digit matches no user, except user 0
      when it is blank (`Number` of blank text is 0). */
  lemma NonNumericSellerRefused(sellerText: string, userId: int)
    requires !HasDigit(sellerText)
    ensures !LooselyDiffers(sellerText, userId) <==> userId == 0 && IsBlank(sellerText)
  {
  }

  /** White space around the seller part does not stop it from matching:
      ` 5 ` is user 5. */
  lemma PaddedSellerMatches(n: nat)
    ensures !LooselyDiffers(" " + NatToString(n) + " ", n)
  {
    var w := NatToString(n);
    TrimPadded(w);
    NumberIgnoresSpaceAround(" " + w + " ");
  }

  /** Digits with a zero fraction `.0` are the number the digits spell. */
  lemma NumberOfZeroFraction(t: string)
    requires |t| >= 3 && IsDigits(t[..|t| - 2]) && t[|t| - 2] == '.' && t[|t| - 1] == '0'
    requires t[0] == '0' ==> |t| == 3
    ensures NumberOfText(t) == Some(DigitsValue(t[..|t| - 2]) as real)
  {
    DecimalOfZeroFraction(t);
    assert IsDigit(t[..|t| - 2][0]);
    assert Trim(t) == t;
    assert !RadixLiteral(t) by {
      if |t| > 3 { assert IsDigit(t[..|t| - 2][1]); }
    }
  }

  /** A zero fraction does not stop the seller part from matching: `5.0` is user 5. */
  lemma ZeroFractionSellerMatches(n: nat)
    ensures !LooselyDiffers(NatToString(n) + ".0", n)
  {
    var w := NatToString(n);
    var t := w + ".0";
    assert t[..|t| - 2] == w && t[0] == w[0] && t[|t| - 2] == '.' && t[|t| - 1] == '0';
    NumberOfZeroFraction(t);
  }

  /** The checks `POST /simulate-pix-payment` by user `userId` makes before
      crediting, in order: a malformed id is refused (400), then an id whose
      seller part does not loosely equal the caller (403); otherwise what the
      id holds. */
  function PaymentCheck(txId: string, userId: int): (r: Result<Parsed, RechargeError>)
    ensures var p := ParseTransactionId(txId);
      (p.Err? ==> r == Err(InvalidId))
      && (p.Ok? && LooselyDiffers(p.value.sellerText, userId) ==> r == Err(Forbidden))
      && (p.Ok? && !LooselyDiffers(p.value.sellerText, userId) ==> r == p)
  {
    var p := ParseTransactionId(txId);
    if p.Err? then Err(InvalidId)
    else if LooselyDiffers(p.value.sellerText, userId) then Err(Forbidden)
    else p
  }

  /** The users' `pending_balance`. */
  class Ledger {
    var balances: map<int, real>

    constructor (balances: map<int, real>)
      ensures this.balances == balances
    {
      this.balances := balances;
    }

    /** `updatePendingBalance(userText, amount)`: the row is the one
        `WHERE id = <userText>` finds; none is an error. An amount that is
        `NaN` makes the update fail. Otherwise exactly `amount` is added to
        that row's balance; on an error nothing changes. */
    method UpdatePendingBalance(userText: string, amount: Option<real>) returns (r: Result<(), RechargeError>)
      modifies this
      ensures var t := CreditTarget(userText);
        (t.None? || t.value !in old(balances) ==> r == Err(UserNotFound))
        && (t.Some? && t.value in old(balances) && amount.None? ==> r == Err(CreditFailed))
        && (t.Some? && t.value in old(balances) && amount.Some? ==>
              r.Ok? && balances == old(balances)[t.value := old(balances)[t.value] + amount.value])
      ensures r.Err? ==> balances == old(balances)
    {
      var target := CreditTarget(userText);
      if target.None? || target.value !in balances {
        return Err(UserNotFound);
      }
      if amount.None? {
        return Err(CreditFailed);
      }
      balances := balances[target.value := balances[target.value] + amount.value];
      r := Ok(());
    }

    /** `POST /simulate-pix-payment` by user `userId`: the checks of
        `PaymentCheck`, then `updatePendingBalance` with the seller text and
        the amount the id carries. */
    method SimulatePixPayment(txId: string, userId: int) returns (r: Result<real, RechargeError>)
      modifies this
      ensures var c := PaymentCheck(txId, userId);
        (c.Err? ==> r == Err(c.error))
        && (c.Ok? ==>
              var t := CreditTarget(c.value.sellerText);
              var a := c.value.amount;
              (t.None? || t.value !in old(balances) ==> r == Err(UserNotFound))
              && (t.Some? && t.value in old(balances) && a.None? ==> r == Err(CreditFailed))
              && (t.Some? && t.value in old(balances) && a.Some? ==>
                    r == Ok(a.value) && balances == old(balances)[t.value := old(balances)[t.value] + a.value]))
      ensures r.Err? ==> balances == old(balances)
    {
      r := Credit(PaymentCheck(txId, userId));
    }

    /** Credits what an accepted payment carries to the row its seller text
        selects; a refusal passes through. */
    method Credit(c: Result<Parsed, RechargeError>) returns (r: Result<real, RechargeError>)
      modifies this
      ensures c.Err? ==> r == Err(c.error)
      ensures c.Ok? ==>
        var t := CreditTarget(c.value.sellerText);
        var a := c.value.amount;
        (t.None? || t.value !in old(balances) ==> r == Err(UserNotFound))
        && (t.Some? && t.value in old(balances) && a.None? ==> r == Err(CreditFailed))
        && (t.Some? && t.value in old(balances) && a.Some? ==>
              r == Ok(a.value) && balances == old(balances)[t.value := old(balances)[t.value] + a.value])
      ensures r.Err? ==> balances == old(balances)
    {
      if c.Err? {
        return Err(c.error);
      }
      var credited := UpdatePendingBalance(c.value.sellerText, c.value.amount);
      if credited.Err? {
        return Err(credited.error);
      }
      r := Ok(c.value.amount.value);
    }
  }
}
