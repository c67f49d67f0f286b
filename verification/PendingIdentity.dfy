/** Models the two pending-identity texts of `establishStartupAdmission` in
    server/bootstrap-startup-context.js and the epoch read back from them. */
module PendingIdentity {
  import opened Common

  // ---------------------------------------------------------------- decimal numbers

  function Digit(d: nat): char
    requires d < 10
  {
    (('0' as int) + d) as char
  }

  predicate IsDigit(c: char) { '0' <= c <= '9' }

  function DigitValue(c: char): nat
    requires IsDigit(c)
  {
    (c as int) - ('0' as int)
  }

  /** A natural number as JavaScript prints a safe integer. */
  function Decimal(n: nat): (s: string)
    ensures s != [] && forall i :: 0 <= i < |s| ==> IsDigit(s[i])
  {
    if n < 10 then [Digit(n)] else Decimal(n / 10) + [Digit(n % 10)]
  }

  /** `Number(text)` on a text of digits; None stands for NaN and for every other number. */
  function ReadNumber(s: string): Option<nat> {
    if s != [] && forall i :: 0 <= i < |s| ==> IsDigit(s[i]) then Some(ReadDigits(s)) else None
  }

  function ReadDigits(s: string): nat
    requires forall i :: 0 <= i < |s| ==> IsDigit(s[i])
  {
    if s == [] then 0 else 10 * ReadDigits(s[..|s|-1]) + DigitValue(s[|s|-1])
  }

  lemma {:induction false} DecimalReadsBack(n: nat)
    ensures ReadNumber(Decimal(n)) == Some(n)
    decreases n
  {
    var s := Decimal(n);
    if n < 10 {
      assert s[..|s|-1] == [] && ReadDigits(s) == DigitValue(s[0]);
    } else {
      DecimalReadsBack(n / 10);
      assert s[..|s|-1] == Decimal(n / 10);
    }
  }

  // ---------------------------------------------------------------- the identity texts

  /** `text.split(':').at(-1)`. */
  function LastSegment(s: string): string {
    if ':' !in s then s else LastSegment(s[1..])
  }

  function InitialIdentity(transactionId: string, epoch: nat): string {
    "initial:" + transactionId + ":" + Decimal(epoch)
  }

  function OperationIdentity(operationId: string, epoch: nat): string {
    operationId + ":" + Decimal(epoch)
  }

  predicate Alphanumeric(c: char) { IsDigit(c) || 'A' <= c <= 'Z' || 'a' <= c <= 'z' }

  /** `/^[A-Za-z0-9][A-Za-z0-9_-]{15,127}$/` */
  predicate IsOperationId(s: string) {
    && 16 <= |s| <= 128 && Alphanumeric(s[0])
    && forall i :: 0 <= i < |s| ==> Alphanumeric(s[i]) || s[i] == '_' || s[i] == '-'
  }

  lemma {:induction false} LastSegmentAfter(prefix: string, last: string)
    requires ':' !in last
    ensures LastSegment(prefix + ":" + last) == last
    decreases |prefix|
  {
    var s := prefix + ":" + last;
    assert s[|prefix|] == ':';
    if prefix == [] {
      assert s[1..] == last;
    } else {
      assert s[1..] == prefix[1..] + ":" + last;
      LastSegmentAfter(prefix[1..], last);
    }
  }

  /** The epoch read back from an identity text is the one printed into it, in both formats. */
  lemma EpochReadsBack(id: string, epoch: nat)
    ensures ReadNumber(LastSegment(InitialIdentity(id, epoch))) == Some(epoch)
    ensures ReadNumber(LastSegment(OperationIdentity(id, epoch))) == Some(epoch)
  {
    assert ':' !in Decimal(epoch);
    LastSegmentAfter("initial:" + id, Decimal(epoch));
    LastSegmentAfter(id, Decimal(epoch));
    DecimalReadsBack(epoch);
  }

  /** No text is both an initial identity and an operation identity. */
  lemma FormatsNeverCoincide(transactionId: string, operationId: string, m: nat, n: nat)
    requires IsOperationId(operationId)
    ensures InitialIdentity(transactionId, m) != OperationIdentity(operationId, n)
  {
    assert InitialIdentity(transactionId, m)[7] == ':';
    assert OperationIdentity(operationId, n)[7] == operationId[7];
  }

  /** Equal identity texts of one format name the same transaction (or operation) and epoch. */
  lemma IdentityIsInjective(a: string, b: string, m: nat, n: nat)
    ensures InitialIdentity(a, m) == InitialIdentity(b, n) ==> a == b && m == n
    ensures OperationIdentity(a, m) == OperationIdentity(b, n) ==> a == b && m == n
  {
    EpochReadsBack(a, m);
    EpochReadsBack(b, n);
    if InitialIdentity(a, m) == InitialIdentity(b, n) {
      var x, y := InitialIdentity(a, m), InitialIdentity(b, n);
      assert |a| == |b| && x[8..8+|a|] == a && y[8..8+|b|] == b;
    }
    if OperationIdentity(a, m) == OperationIdentity(b, n) {
      var x, y := OperationIdentity(a, m), OperationIdentity(b, n);
      assert |a| == |b| && x[..|a|] == a && y[..|b|] == b;
    }
  }
}
