/**
 * Address shortening: the first six characters, "...", then the last four,
 * with JavaScript's clamping of `substring` arguments for short strings. The
 * same expression renders a transaction's counterparty and a send receipt's
 * recipient.
 */
module WalletHeader {
  import opened JsText

  function FormatAddress(addr: string): (r: string)
    ensures r == addr[..Min(6, |addr|)] + "..." + addr[Max(0, |addr| - 4)..]
  {
    Substring(addr, 0, 6) + "..." + SubstringFrom(addr, |addr| - 4)
  }

  /** The text before "..." is a prefix of the address, the text after it a suffix. */
  lemma FormatAddressParts(addr: string)
    ensures exists p, q ::
              && FormatAddress(addr) == p + "..." + q
              && p <= addr && |p| == Min(6, |addr|)
              && |q| == Min(4, |addr|) && q == addr[|addr| - |q|..]
  {
    var p, q := addr[..Min(6, |addr|)], addr[Max(0, |addr| - 4)..];
    assert FormatAddress(addr) == p + "..." + q;
  }

  /** A full-length address shows its first six and last four characters, 13 in all. */
  lemma FormatLongAddress(addr: string)
    requires |addr| >= 10
    ensures FormatAddress(addr) == addr[..6] + "..." + addr[|addr| - 4..]
    ensures |FormatAddress(addr)| == 13
    ensures addr == FormatAddress(addr)[..6] + addr[6..|addr| - 4] + FormatAddress(addr)[9..]
  {
    var r := FormatAddress(addr);
    assert r[..6] == addr[..6];
    assert r[9..] == addr[|addr| - 4..];
  }

  /**
   * Shortening forgets only the middle: two full-length addresses display the
   * same exactly when their first six and last four characters agree.
   */
  lemma FormatLongAddressKeepsEnds(a: string, b: string)
    requires |a| >= 10 && |b| >= 10
    ensures FormatAddress(a) == FormatAddress(b)
        <==> a[..6] == b[..6] && a[|a| - 4..] == b[|b| - 4..]
  {
    FormatLongAddress(a);
    FormatLongAddress(b);
    if FormatAddress(a) == FormatAddress(b) {
      assert a[..6] == FormatAddress(a)[..6];
      assert b[..6] == FormatAddress(b)[..6];
      assert a[|a| - 4..] == FormatAddress(a)[9..];
      assert b[|b| - 4..] == FormatAddress(b)[9..];
    }
  }

  /** Under six characters the whole address stands before "...". */
  lemma FormatShortHead(addr: string)
    requires |addr| < 6
    ensures FormatAddress(addr)[..|addr|] == addr
    ensures FormatAddress(addr)[|addr|..|addr| + 3] == "..."
  {
  }

  /** Under four characters the whole address also stands after "...". */
  lemma FormatShortAddress(addr: string)
    requires |addr| < 4
    ensures FormatAddress(addr) == addr + "..." + addr
  {
  }

  /**
   * From six to nine characters the two parts overlap: the characters from
   * index |addr| - 4 up to 6 are shown twice.
   */
  lemma FormatOverlap(addr: string)
    requires 6 <= |addr| <= 9
    ensures |FormatAddress(addr)| == 13
    ensures FormatAddress(addr)[|addr| - 4..6] == FormatAddress(addr)[9..9 + (10 - |addr|)]
    ensures FormatAddress(addr)[9..9 + (10 - |addr|)] == addr[|addr| - 4..6]
  {
  }
}
