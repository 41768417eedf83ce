/** The Ruby `String` operations the scripts rely on, over `seq<char>`. */
module RubyString {

  /** `s.start_with?(prefix)`, also what an anchored literal regular expression tests. */
  predicate StartsWith(s: string, prefix: string)
  {
    prefix <= s
  }

  /** `s.delete_prefix(prefix)`: `s` without `prefix` when it starts with it, otherwise `s` unchanged. */
  function DeletePrefix(s: string, prefix: string): (r: string)
    ensures StartsWith(s, prefix) ==> prefix + r == s
    ensures !StartsWith(s, prefix) ==> r == s
  {
    if StartsWith(s, prefix) then s[|prefix|..] else s
  }

  /** Deleting a prefix that was put in front gives back what followed it. */
  lemma DeletePrefixOfConcat(prefix: string, rest: string)
    ensures DeletePrefix(prefix + rest, prefix) == rest
  {
    assert StartsWith(prefix + rest, prefix);
  }

  /** A string starting with `p + q` starts with `p`, and what follows `p` starts with `q`. */
  lemma StartsWithConcat(s: string, p: string, q: string)
    ensures StartsWith(s, p + q) <==> StartsWith(s, p) && StartsWith(DeletePrefix(s, p), q)
  {
    if StartsWith(s, p + q) {
      assert s[..|p|] == (p + q)[..|p|] == p;
      assert s[|p|..][..|q|] == s[..|p| + |q|][|p|..];
    }
    if StartsWith(s, p) && StartsWith(DeletePrefix(s, p), q) {
      assert s == p + s[|p|..];
    }
  }

  /**
   * `line.chomp`: `line` without one trailing record separator,
   * which is "\r\n", "\n" or "\r"; any other line is returned unchanged.
   */
  function Chomp(line: string): (r: string)
    ensures r <= line
    ensures line[|r|..] == "" || line[|r|..] == "\n" || line[|r|..] == "\r" || line[|r|..] == "\r\n"
    ensures |line| >= 1 && (line[|line| - 1] == '\n' || line[|line| - 1] == '\r') ==> |r| < |line|
    ensures |line| >= 2 && line[|line| - 2] == '\r' && line[|line| - 1] == '\n' ==> |r| == |line| - 2
  {
    var n := |line|;
    if n >= 2 && line[n - 2] == '\r' && line[n - 1] == '\n' then line[..n - 2]
    else if n >= 1 && (line[n - 1] == '\n' || line[n - 1] == '\r') then line[..n - 1]
    else line
  }
}
