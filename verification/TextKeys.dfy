/** The text keys of the source's maps identify what they are made of, so the model may use the
    parts themselves as keys. */
module TextKeys {
  import opened Bitcoin

  // ------------------------------------------------ decimal and hexadecimal text

  function Digit(n: nat): char
    requires n < 16
  {
    "0123456789abcdef"[n]
  }

  function DigitValue(c: char): Option<nat> {
    if '0' <= c <= '9' then Some((c - '0') as nat)
    else if 'a' <= c <= 'f' then Some((c - 'a') as nat + 10)
    else if 'A' <= c <= 'F' then Some((c - 'A') as nat + 10)
    else None
  }

  function Decimal(n: nat): string {
    if n < 10 then [Digit(n)] else Decimal(n / 10) + [Digit(n % 10)]
  }

  function ReadDecimal(s: string): nat {
    if s == [] then 0
    else match DigitValue(Last(s))
      case Some(d) => ReadDecimal(DropLast(s)) * 10 + d
      case None => 0
  }

  function Hex(b: Bytes): string {
    if b == [] then "" else [Digit(b[0] as nat / 16), Digit(b[0] as nat % 16)] + Hex(b[1..])
  }

  /** Decoding fails on an odd length and on any other character. */
  function UnHex(s: string): Option<Bytes> {
    if s == [] then Some([])
    else if |s| == 1 then None
    else match (DigitValue(s[0]), DigitValue(s[1]), UnHex(s[2..]))
      case (Some(h), Some(l), Some(rest)) => if h < 16 && l < 16 then Some([(16 * h + l) as byte] + rest) else None
      case _ => None
  }

  lemma {:induction false} DigitIs(n: nat)
    requires n < 16
    ensures DigitValue(Digit(n)) == Some(n)
    ensures Digit(n) != '-' && Digit(n) != '_'
  {
    var digits := "0123456789abcdef";
    assert digits[n] == digits[n];
  }

  lemma {:induction false} DecimalRoundTrip(n: nat)
    ensures ReadDecimal(Decimal(n)) == n
  {
    DigitIs(n % 10);
    if n < 10 {
      assert DropLast([Digit(n)]) == [];
    } else {
      DecimalRoundTrip(n / 10);
      assert DropLast(Decimal(n)) == Decimal(n / 10);
    }
  }

  lemma {:induction false} UnHexByte(x: byte, s: string, b: Bytes)
    requires UnHex(s) == Some(b)
    ensures UnHex([Digit(x as nat / 16), Digit(x as nat % 16)] + s) == Some([x] + b)
  {
    DigitIs(x as nat / 16);
    DigitIs(x as nat % 16);
    hide Digit, DigitValue;
    var t := [Digit(x as nat / 16), Digit(x as nat % 16)] + s;
    assert t[2..] == s;
  }

  lemma {:induction false} HexRoundTrip(b: Bytes)
    ensures UnHex(Hex(b)) == Some(b)
  {
    if b == [] {
    } else {
      HexRoundTrip(b[1..]);
      UnHexByte(b[0], Hex(b[1..]), b[1..]);
      hide UnHex, Digit;
      assert [b[0]] + b[1..] == b;
    }
  }

  // ------------------------------------------------ joined keys

  lemma {:induction false} NotLonger(a: string, b: string, sep: char, a': string, b': string)
    requires sep !in a' && a + [sep] + b == a' + [sep] + b'
    ensures |a'| <= |a|
  {
    var s := a' + [sep] + b';
    assert (a + [sep] + b)[|a|] == sep;
    assert forall i :: 0 <= i < |a'| ==> s[i] == a'[i] && a'[i] in a';
  }

  /** A text that never contains the separator can be read back from the key. */
  lemma {:induction false} JoinIsInjective(a: string, b: string, sep: char, a': string, b': string)
    requires sep !in a && sep !in a' && a + [sep] + b == a' + [sep] + b'
    ensures a == a' && b == b'
  {
    NotLonger(a, b, sep, a', b');
    NotLonger(a', b', sep, a, b);
    var s := a + [sep] + b;
    assert a == s[..|a|] && a' == s[..|a'|];
    assert b == s[|a| + 1..] && b' == s[|a'| + 1..];
  }

  /** The key of an output in the signature maps. */
  function UtxoKey(txid: string, vout: nat): string { txid + ['-'] + Decimal(vout) }

  /** The name an action has in keys. */
  function ActionName(a: Action): string {
    match a
    case Initiate => "initiate"
    case Redeem => "redeem"
    case Refund => "refund"
    case OtherAction(name) => name
  }

  /** The key of an executed action in the batch record. */
  function ActionKey(a: Action, secretHash: Bytes): string { ActionName(a) + ['_'] + Hex(secretHash) }

  lemma {:induction false} UtxoKeyIdentifies(txid: string, vout: nat, txid': string, vout': nat)
    requires '-' !in txid && '-' !in txid'
    ensures UtxoKey(txid, vout) == UtxoKey(txid', vout') <==> txid == txid' && vout == vout'
  {
    if UtxoKey(txid, vout) == UtxoKey(txid', vout') {
      JoinIsInjective(txid, Decimal(vout), '-', txid', Decimal(vout'));
      DecimalRoundTrip(vout);
      DecimalRoundTrip(vout');
    }
  }

  lemma {:induction false} ActionKeyIdentifies(a: Action, h: Bytes, a': Action, h': Bytes)
    requires a in {Initiate, Redeem, Refund} && a' in {Initiate, Redeem, Refund}
    ensures ActionKey(a, h) == ActionKey(a', h') <==> a == a' && h == h'
  {
    if ActionKey(a, h) == ActionKey(a', h') {
      JoinIsInjective(ActionName(a), Hex(h), '_', ActionName(a'), Hex(h'));
      HexRoundTrip(h);
      HexRoundTrip(h');
      assert ActionName(a)[2] == ActionName(a')[2];
    }
  }
}
