/** String.prototype.trim(). */
module Whitespace {
  /** The characters trim() removes. */
  predicate IsSpace(c: char) {
    var n := c as int;
    || 9 <= n <= 13 || n == 0x20 || n == 0xA0 || n == 0x1680 || 0x2000 <= n <= 0x200A || n == 0x2028 || n == 0x2029
    || n == 0x202F || n == 0x205F || n == 0x3000 || n == 0xFEFF
  }

  function TrimStart(text: string): string {
    if text != "" && IsSpace(text[0]) then TrimStart(text[1..]) else text
  }

  function TrimEnd(text: string): string {
    if text != "" && IsSpace(text[|text| - 1]) then TrimEnd(text[..|text| - 1]) else text
  }

  function Trim(text: string): string {
    TrimEnd(TrimStart(text))
  }

  /** A text without spaces at its ends stays as it is. */
  lemma TrimKeeps(text: string)
    requires text != "" ==> !IsSpace(text[0]) && !IsSpace(text[|text| - 1])
    ensures Trim(text) == text
  {
  }

  predicate IsBlank(text: string) {
    forall i :: 0 <= i < |text| ==> IsSpace(text[i])
  }

  lemma {:induction false} TrimmedToNothingIffBlank(text: string)
    ensures Trim(text) == "" <==> IsBlank(text)
  {
    if text == "" {
    } else {
      if IsSpace(text[0]) {
        TrimmedToNothingIffBlank(text[1..]);
        assert IsBlank(text) <==> IsBlank(text[1..]) by {
          assert forall i :: 0 < i < |text| ==> text[i] == text[1..][i - 1];
        }
      } else {
        TrimEndKeepsStart(text);
      }
    }
  }

  lemma {:induction false} TrimEndKeepsStart(text: string)
    requires text != "" && !IsSpace(text[0])
    ensures TrimEnd(text) != ""
  {
    if IsSpace(text[|text| - 1]) { TrimEndKeepsStart(text[..|text| - 1]); }
  }

  /** Trimming takes exactly the spaces at both ends. */
  lemma {:induction false} TrimTakesTheEnds(text: string) returns (a: nat, b: nat)
    ensures a <= b <= |text| && Trim(text) == text[a..b]
    ensures forall i :: 0 <= i < a || b <= i < |text| ==> IsSpace(text[i])
    ensures a < b ==> !IsSpace(text[a]) && !IsSpace(text[b - 1])
  {
    a := TrimStartIsSuffix(text);
    var k := TrimEndIsPrefix(text[a..]);
    b := a + k;
    assert text[a..][..k] == text[a..b];
    assert forall i :: b <= i < |text| ==> text[i] == text[a..][i - a];
  }

  lemma {:induction false} TrimStartIsSuffix(text: string) returns (k: nat)
    ensures k <= |text| && TrimStart(text) == text[k..]
    ensures k < |text| ==> !IsSpace(text[k])
    ensures forall i :: 0 <= i < k ==> IsSpace(text[i])
  {
    if text == "" || !IsSpace(text[0]) {
      k := 0;
    } else {
      k := TrimStartIsSuffix(text[1..]);
      k := k + 1;
      assert forall i :: 0 < i < k ==> text[i] == text[1..][i - 1];
    }
  }

  lemma {:induction false} TrimEndIsPrefix(text: string) returns (k: nat)
    ensures k <= |text| && TrimEnd(text) == text[..k]
    ensures k > 0 ==> !IsSpace(text[k - 1])
    ensures forall i :: k <= i < |text| ==> IsSpace(text[i])
  {
    if text == "" || !IsSpace(text[|text| - 1]) {
      k := |text|;
    } else {
      k := TrimEndIsPrefix(text[..|text| - 1]);
    }
  }
}
