/** Extraction of the event frame from a raw socket message: `hasData`, built
    from `std::string::find`, `find_first_of` and `substr` with 64-bit
    `size_t` arithmetic. */
module Message {
  import opened Wrappers

  /** `size_t` is a 64-bit unsigned integer: its arithmetic is modulo 2^64. */
  const SizeModulus: int := 0x1_0000_0000_0000_0000

  /** An integer as the `size_t` value it becomes: reduced modulo 2^64. */
  function SizeT(v: int): (r: nat)
    ensures r < SizeModulus
    ensures 0 <= v < SizeModulus ==> r == v
    ensures -SizeModulus <= v < 0 ==> r == v + SizeModulus
  {
    v % SizeModulus
  }

  /** `pat` occurs in `s` at position `i`. */
  predicate OccursAt(s: string, pat: string, i: int)
  {
    0 <= i && i + |pat| <= |s| && s[i..i + |pat|] == pat
  }

  /** `std::string::find(pat, from)`: the first position at or after `from`
      where `pat` occurs, or None for `npos`. */
  function Find(s: string, pat: string, from: nat := 0): (r: Option<nat>)
    requires from <= |s|
    ensures r.Some? ==> from <= r.value && OccursAt(s, pat, r.value)
    ensures forall i :: from <= i && (r.None? || i < r.value) ==> !OccursAt(s, pat, i)
    decreases |s| - from
  {
    if from + |pat| > |s| then
      None
    else if s[from..from + |pat|] == pat then
      Some(from)
    else
      Find(s, pat, from + 1)
  }

  /** `std::string::find_first_of(c)` for a single character: the first
      position holding `c`, or None for `npos`. */
  function FindFirstOf(s: string, c: char, from: nat := 0): (r: Option<nat>)
    requires from <= |s|
    ensures r.Some? ==> from <= r.value < |s| && s[r.value] == c
    ensures forall i :: from <= i < |s| && (r.None? || i < r.value) ==> s[i] != c
    decreases |s| - from
  {
    if from == |s| then
      None
    else if s[from] == c then
      Some(from)
    else
      FindFirstOf(s, c, from + 1)
  }

  /** The first `c` is at `k` when `s[k]` is `c` and no earlier character is. */
  lemma FindFirstOfAt(s: string, c: char, k: nat)
    requires k < |s| && s[k] == c
    requires forall i :: 0 <= i < k ==> s[i] != c
    ensures FindFirstOf(s, c) == Some(k)
  {
  }

  /** `std::string::substr(pos, count)`: at most `count` characters from
      `pos`, clamped to the end of the string. */
  function Substr(s: string, pos: nat, count: nat): (r: string)
    requires pos <= |s|
    ensures |r| <= count && pos + |r| <= |s| && r == s[pos..pos + |r|]
    ensures |r| == count || pos + |r| == |s|
  {
    if count <= |s| - pos then s[pos..pos + count] else s[pos..]
  }

  /** The JSON payload of a socket event, or "" when there is none. */
  function HasData(s: string): (r: string)
    ensures r != "" ==> Find(s, "null").None? && r[0] == '['
    ensures r != "" ==> FindFirstOf(s, '[').Some? && FindFirstOf(s, '[').value + |r| <= |s|
    ensures r != "" ==> r == s[FindFirstOf(s, '[').value..FindFirstOf(s, '[').value + |r|]
  {
    var foundNull := Find(s, "null");
    var b1 := FindFirstOf(s, '[');
    var b2 := FindFirstOf(s, '}');
    if foundNull.Some? then
      ""
    else if b1.Some? && b2.Some? then
      Substr(s, b1.value, SizeT(b2.value - b1.value + 2))
    else
      ""
  }

  /** "null" anywhere in the message, or a missing `[` or `}`, yields "". */
  lemma HasDataEmpty(s: string)
    requires (exists i :: OccursAt(s, "null", i)) || '[' !in s || '}' !in s
    ensures HasData(s) == ""
  {
    if Find(s, "null").None? {
      if '[' !in s {
        assert FindFirstOf(s, '[').None?;
      } else if '}' !in s {
        assert FindFirstOf(s, '}').None?;
      }
    }
  }

  /** When the first `[` precedes the first `}`, the frame runs from that `[`
      through the `}` and one more character, clamped to the end of the string. */
  lemma HasDataFrame(s: string, b1: nat, b2: nat)
    requires |s| + 1 < SizeModulus
    requires Find(s, "null").None?
    requires FindFirstOf(s, '[') == Some(b1) && FindFirstOf(s, '}') == Some(b2)
    requires b1 <= b2
    ensures HasData(s) == s[b1..if b2 + 2 <= |s| then b2 + 2 else |s|]
  {
    var count := b2 - b1 + 2;
    assert HasData(s) == Substr(s, b1, SizeT(count));
    assert SizeT(count) == count;
    assert Substr(s, b1, count) == s[b1..if b2 + 2 <= |s| then b2 + 2 else |s|];
  }

  /** When the first `}` comes before the first `[`, the length `b2 - b1 + 2`
      wraps around 2^64: one character apart it is 1, two apart it is 0, and
      further apart it is huge, so the rest of the string is returned. */
  lemma HasDataWrapped(s: string, b1: nat, b2: nat)
    requires |s| < SizeModulus
    requires Find(s, "null").None?
    requires FindFirstOf(s, '[') == Some(b1) && FindFirstOf(s, '}') == Some(b2)
    requires b2 < b1
    ensures HasData(s) == if b1 - b2 == 1 then "[" else if b1 - b2 == 2 then "" else s[b1..]
  {
    var count := SizeT(b2 - b1 + 2);
    if b1 - b2 == 1 {
      assert count == 1;
    } else if b1 - b2 == 2 {
      assert count == 0;
    } else {
      assert count == SizeModulus + b2 - b1 + 2;
      assert |s| - b1 <= count;
    }
  }

  /** A socket.io event `prefix[body}]` whose prefix holds neither bracket,
      whose body holds no `}` and which contains no "null" anywhere, yields
      exactly its bracketed payload `[body}]`. */
  lemma {:induction false} HasDataExtractsEvent(prefix: string, body: string)
    requires |prefix| + |body| + 4 < SizeModulus
    requires '[' !in prefix && '}' !in prefix && '}' !in body
    requires Find(prefix + "[" + body + "}]", "null").None?
    ensures HasData(prefix + "[" + body + "}]") == "[" + body + "}]"
  {
    var s := prefix + "[" + body + "}]";
    var b1 := |prefix|;
    var b2 := |prefix| + 1 + |body|;
    forall i | 0 <= i < b2
      ensures s[i] != '}' && (i < b1 ==> s[i] != '[')
    {
      if i < b1 {
        assert s[i] == prefix[i];
      } else if i > b1 {
        assert s[i] == body[i - b1 - 1];
      }
    }
    FindFirstOfAt(s, '[', b1);
    FindFirstOfAt(s, '}', b2);
    HasDataFrame(s, b1, b2);
    assert b2 + 2 == |s|;
    assert s == prefix + ("[" + body + "}]");
    assert s[b1..] == "[" + body + "}]";
  }
}
