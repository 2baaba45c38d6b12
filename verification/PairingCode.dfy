/** The six digits two humans compare, and the shapes of nonces and tokens. */
module PairingCode {
  import opened Common

  const CODE_DIGITS: nat := 6
  const CODE_MODULUS: nat := 1000000
  const NONCE_HEX_LEN: nat := 32
  const TOKEN_HEX_LEN: nat := 64

  /** The first four bytes of a digest of the text; which digest does not matter here. */
  type Hash = string -> (byte, byte, byte, byte)

  /** Strict lexicographic order of two texts, by character code. */
  predicate Precedes(a: string, b: string) {
    if b == [] then false
    else if a == [] then true
    else if a[0] != b[0] then a[0] < b[0]
    else Precedes(a[1..], b[1..])
  }

  /** The order is total and strict: of two different texts exactly one precedes the other. */
  lemma {:induction false} PrecedesTotal(a: string, b: string)
    ensures Precedes(a, b) ==> !Precedes(b, a)
    ensures Precedes(a, b) || Precedes(b, a) <==> a != b
  {
    if a == [] || b == [] {
    } else {
      PrecedesTotal(a[1..], b[1..]);
      assert a == [a[0]] + a[1..] && b == [b[0]] + b[1..];
    }
  }

  /** Where two texts first part, the one that ends there comes first, or else the one with the smaller character. */
  predicate PartsAt(a: string, b: string, k: nat) {
    && k <= |a| && k < |b| && a[..k] == b[..k] && (k == |a| || a[k] < b[k])
  }

  lemma PartsLater(a: string, b: string)
    requires a != [] && b != []
    ensures forall k: nat :: PartsAt(a, b, k) && k > 0 ==> a[0] == b[0]
  {
    forall k: nat | PartsAt(a, b, k) && k > 0 ensures a[0] == b[0] {
      assert a[..k][0] == a[0] && b[..k][0] == b[0];
    }
  }

  lemma {:induction false} PrecedesWhereTheyPart(a: string, b: string)
    ensures Precedes(a, b) <==> exists k: nat :: PartsAt(a, b, k)
  {
    if b == [] {
    } else if a == [] {
      assert PartsAt(a, b, 0);
    } else if a[0] != b[0] {
      if a[0] < b[0] { assert PartsAt(a, b, 0); }
      PartsLater(a, b);
    } else {
      PrecedesWhereTheyPart(a[1..], b[1..]);
      if k: nat :| PartsAt(a, b, k) {
        assert a[1..][..k - 1] == a[..k][1..] && b[1..][..k - 1] == b[..k][1..];
        assert PartsAt(a[1..], b[1..], k - 1);
      }
      if k: nat :| PartsAt(a[1..], b[1..], k) {
        assert a[..k + 1] == [a[0]] + a[1..][..k] && b[..k + 1] == [b[0]] + b[1..][..k];
        assert PartsAt(a, b, k + 1);
      }
    }
  }

  function Digit(n: nat): char
    requires n < 10
  {
    '0' + n as char
  }

  /** n in decimal, zero-padded to `width` digits. */
  function Decimal(n: nat, width: nat): string {
    if width == 0 then "" else Decimal(n / 10, width - 1) + [Digit(n % 10)]
  }

  /** The number a text of decimal digits denotes. */
  function Value(s: string): nat
    requires forall i :: 0 <= i < |s| ==> '0' <= s[i] <= '9'
  {
    if s == [] then 0 else Value(s[..|s| - 1]) * 10 + (s[|s| - 1] as nat - '0' as nat)
  }

  function BigEndian(d: (byte, byte, byte, byte)): nat {
    ((d.0 * 256 + d.1) * 256 + d.2) * 256 + d.3
  }

  /** The code both sides display, derived from both ids and the nonce. */
  function Code(h: Hash, idA: string, idB: string, nonce: string): string {
    var (first, second) := if Precedes(idB, idA) then (idB, idA) else (idA, idB);
    Decimal(BigEndian(h(first + ":" + second + ":" + nonce)) % CODE_MODULUS, CODE_DIGITS)
  }

  /** Neither side needs to know whether it dialled: the derivation is symmetric in the two ids. */
  lemma CodeSymmetric(h: Hash, idA: string, idB: string, nonce: string)
    ensures Code(h, idA, idB, nonce) == Code(h, idB, idA, nonce)
  {
    PrecedesTotal(idA, idB);
  }

  predicate ValidCodeFormat(s: string) {
    |s| == CODE_DIGITS && forall i :: 0 <= i < |s| ==> '0' <= s[i] <= '9'
  }

  lemma {:induction false} DecimalFaithful(n: nat, width: nat, bound: nat)
    requires bound == Power10(width) && n < bound
    ensures |Decimal(n, width)| == width
    ensures forall i :: 0 <= i < width ==> '0' <= Decimal(n, width)[i] <= '9'
    ensures Value(Decimal(n, width)) == n
  {
    if width > 0 {
      DecimalFaithful(n / 10, width - 1, Power10(width - 1));
      var front := Decimal(n / 10, width - 1);
      var s := Decimal(n, width);
      assert s[..|s| - 1] == front;
    }
  }

  function Power10(k: nat): nat { if k == 0 then 1 else 10 * Power10(k - 1) }

  /** A code is always six digits, and they are the reduced digest: no two residues look alike on screen. */
  lemma CodeIsSixDigits(h: Hash, idA: string, idB: string, nonce: string)
    ensures ValidCodeFormat(Code(h, idA, idB, nonce))
    ensures var (first, second) := if Precedes(idB, idA) then (idB, idA) else (idA, idB);
            Value(Code(h, idA, idB, nonce)) == BigEndian(h(first + ":" + second + ":" + nonce)) % CODE_MODULUS
  {
    var (first, second) := if Precedes(idB, idA) then (idB, idA) else (idA, idB);
    assert Power10(6) == CODE_MODULUS by {
      assert Power10(1) == 10 && Power10(2) == 100 && Power10(3) == 1000;
      assert Power10(4) == 10000 && Power10(5) == 100000;
    }
    DecimalFaithful(BigEndian(h(first + ":" + second + ":" + nonce)) % CODE_MODULUS, CODE_DIGITS, CODE_MODULUS);
  }

  predicate LowerHex(c: char) { '0' <= c <= '9' || 'a' <= c <= 'f' }

  predicate AllLowerHex(s: string, want: nat) {
    |s| == want && forall i :: 0 <= i < |s| ==> LowerHex(s[i])
  }

  predicate ValidNonceFormat(s: string) { AllLowerHex(s, NONCE_HEX_LEN) }

  predicate ValidTokenFormat(s: string) { AllLowerHex(s, TOKEN_HEX_LEN) }

  /** validLowerHex: a scan that stops at the first character out of range. */
  method ValidLowerHex(s: string, want: nat) returns (ok: bool)
    ensures ok <==> AllLowerHex(s, want)
  {
    if |s| != want { return false; }
    for i := 0 to |s|
      invariant forall j :: 0 <= j < i ==> LowerHex(s[j])
    {
      if !('0' <= s[i] <= '9') && !('a' <= s[i] <= 'f') { return false; }
    }
    ok := true;
  }
}
