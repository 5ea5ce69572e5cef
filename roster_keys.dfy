/**
 * Roster-key matching for JoinDKGSession and JoinSignSession: both sides are normalised with
 * `k.toLowerCase().replace('0x', '')` (ts-fserver/dist/server.js:199 and 512), i.e. lower-cased
 * and then stripped of the FIRST occurrence of "0x", wherever it occurs, and compared for equality.
 */
module RosterKeys {
  import opened Wrappers
  import HexIds

  function LowerChar(c: char): char {
    if 'A' <= c <= 'Z' then (c as int - 'A' as int + 'a' as int) as char else c
  }

  /** `String.prototype.toLowerCase` on ASCII letters. */
  function Lower(s: string): (r: string)
    ensures |r| == |s|
    ensures forall i :: 0 <= i < |s| ==> r[i] == LowerChar(s[i])
  {
    seq(|s|, i requires 0 <= i < |s| => LowerChar(s[i]))
  }

  predicate ZeroXAt(s: string, i: int)
    requires 0 <= i
  {
    i + 1 < |s| && s[i] == '0' && s[i + 1] == 'x'
  }

  /** `s.indexOf('0x')`, with -1 as `None`. */
  function IndexOf0x(s: string): (r: Option<nat>)
    ensures r.Some? ==> ZeroXAt(s, r.value) && forall j :: 0 <= j < r.value ==> !ZeroXAt(s, j)
    ensures r.None? ==> forall j :: 0 <= j < |s| ==> !ZeroXAt(s, j)
  {
    if |s| < 2 then None
    else if s[0] == '0' && s[1] == 'x' then Some(0)
    else
      assert forall i :: 1 <= i < |s| ==> (ZeroXAt(s, i) <==> ZeroXAt(s[1..], i - 1));
      match IndexOf0x(s[1..])
      case Some(j) => Some(j + 1)
      case None => None
  }

  /** `s.replace('0x', '')`: only the first occurrence is removed. */
  function RemoveFirst0x(s: string): (r: string)
    ensures IndexOf0x(s).None? ==> r == s
    ensures IndexOf0x(s).Some? ==> r == s[..IndexOf0x(s).value] + s[IndexOf0x(s).value + 2..]
  {
    if |s| < 2 then s
    else if s[0] == '0' && s[1] == 'x' then s[2..]
    else [s[0]] + RemoveFirst0x(s[1..])
  }

  function NormalizeKey(s: string): string {
    RemoveFirst0x(Lower(s))
  }

  predicate KeysMatch(rosterKey: string, loggedInKey: string) {
    NormalizeKey(rosterKey) == NormalizeKey(loggedInKey)
  }

  /** Hex digits in either case. */
  predicate IsHexText(s: string) {
    forall i :: 0 <= i < |s| ==> HexIds.DigitValue(LowerChar(s[i])).Some?
  }

  /**
   * For a hex key, the normalised form is the lower-cased key whether it is written bare or
   * with a "0x" / "0X" prefix, so all these spellings match one another.
   */
  lemma {:induction false} PrefixAndCaseInsensitive(h: string)
    requires IsHexText(h)
    ensures NormalizeKey(h) == Lower(h)
    ensures NormalizeKey("0x" + h) == Lower(h)
    ensures NormalizeKey("0X" + h) == Lower(h)
  {
    var l := Lower(h);
    forall j | 0 <= j < |l| ensures !ZeroXAt(l, j) {
      if j + 1 < |l| { assert HexIds.DigitValue(l[j + 1]).Some?; }
    }
    assert Lower("0x" + h) == "0x" + l;
    assert Lower("0X" + h) == "0x" + l;
    assert ("0x" + l)[2..] == l;
  }

  /** The quirk of `replace` with a string pattern: an inner "0x" is removed too, not only a prefix. */
  lemma InnerZeroXRemoved()
    ensures NormalizeKey("AB0XCD") == "abcd"
  {
    assert Lower("AB0XCD") == "ab0xcd";
    assert IndexOf0x("ab0xcd") == Some(2);
    assert "ab0xcd"[..2] + "ab0xcd"[4..] == "abcd";
  }

  /** The other half of that quirk: only the first "0x" is removed. */
  lemma OnlyFirstZeroXRemoved()
    ensures NormalizeKey("0x0xab") == "0xab"
  {
    assert Lower("0x0xab") == "0x0xab";
    assert RemoveFirst0x("0x0xab") == "0x0xab"[2..];
  }
}
