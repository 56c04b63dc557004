/** The string operations the agent relies on, over `string` = `seq<char>`. */
module Text {

  /** Python's `needle in haystack` on strings: the needle occurs as a
      contiguous run of the haystack. The empty needle occurs everywhere. */
  predicate Contains(haystack: string, needle: string)
    decreases |haystack|
  {
    if |needle| > |haystack| then false
    else if haystack[..|needle|] == needle then true
    else Contains(haystack[1..], needle)
  }

  /** Reference definition: `needle` starts at index `i` of `haystack`. */
  ghost predicate OccursAt(haystack: string, needle: string, i: int) {
    0 <= i && i + |needle| <= |haystack| && haystack[i..i + |needle|] == needle
  }

  /** The scanning definition agrees with the existence of an occurrence. */
  lemma {:induction false} ContainsIffOccurs(haystack: string, needle: string)
    ensures Contains(haystack, needle) <==> exists i :: OccursAt(haystack, needle, i)
    decreases |haystack|
  {
    if |needle| > |haystack| {
    } else if haystack[..|needle|] == needle {
      assert OccursAt(haystack, needle, 0);
    } else {
      var tail := haystack[1..];
      ContainsIffOccurs(tail, needle);
      if exists i :: OccursAt(tail, needle, i) {
        var i :| OccursAt(tail, needle, i);
        assert tail[i..i + |needle|] == haystack[i + 1..i + 1 + |needle|];
        assert OccursAt(haystack, needle, i + 1);
      }
      if exists j :: OccursAt(haystack, needle, j) {
        var j :| OccursAt(haystack, needle, j);
        assert j != 0;
        assert haystack[j..j + |needle|] == tail[j - 1..j - 1 + |needle|];
        assert OccursAt(tail, needle, j - 1);
      }
    }
  }

  /** A needle placed anywhere inside a string is found there. */
  lemma {:induction false} ContainsInfix(before: string, needle: string, after: string)
    ensures Contains(before + needle + after, needle)
    decreases |before|
  {
    var s := before + needle + after;
    if |before| == 0 {
      assert s[..|needle|] == needle;
    } else if s[..|needle|] != needle {
      assert s[1..] == before[1..] + needle + after;
      ContainsInfix(before[1..], needle, after);
    }
  }

  /** A prefix that never mentions the needle's first character can neither
      hold an occurrence nor start one that runs on into `s`, so prepending it
      leaves the substring test unchanged. */
  lemma {:induction false} ContainsPastPrefix(prefix: string, s: string, needle: string)
    requires |needle| > 0 && needle[0] !in prefix
    ensures Contains(prefix + s, needle) <==> Contains(s, needle)
    decreases |prefix|
  {
    if |prefix| == 0 {
      assert prefix + s == s;
    } else {
      var whole := prefix + s;
      if |needle| <= |whole| {
        assert whole[..|needle|][0] == prefix[0];
        assert whole[..|needle|] != needle;
      }
      assert whole[1..] == prefix[1..] + s;
      assert needle[0] !in prefix[1..] by {
        forall k | 0 <= k < |prefix[1..]|
          ensures prefix[1..][k] != needle[0]
        {
          assert prefix[1..][k] == prefix[k + 1];
        }
      }
      ContainsPastPrefix(prefix[1..], s, needle);
    }
  }

  /** ASCII upper case to lower case; every other character is kept. */
  function LowerChar(c: char): char {
    if 'A' <= c <= 'Z' then (c as int + 32) as char else c
  }

  /** Lower-casing of a string, character by character. */
  function AsciiLower(s: string): string {
    seq(|s|, i requires 0 <= i < |s| => LowerChar(s[i]))
  }

  /** Lower-casing twice is lower-casing once. */
  lemma AsciiLowerIdempotent(s: string)
    ensures AsciiLower(AsciiLower(s)) == AsciiLower(s)
  {
    var once := AsciiLower(s);
    forall i | 0 <= i < |s|
      ensures AsciiLower(once)[i] == once[i]
    {
      assert !('A' <= once[i] <= 'Z');
    }
  }
}
