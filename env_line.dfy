/** The `.env` line grammar shared by the two hand-written loaders
    (`ConfigManager._manual_load_env` and `APIConfig._load_env_manually`):
    the line is stripped; blank lines, `#` lines and lines without `=` are
    ignored; the rest splits at the first `=` into a stripped key and a value
    that is stripped of whitespace, then of `"`, then of `'`. */
module EnvLine {
  import opened Common

  const DoubleQuote: set<char> := {'"'}
  const SingleQuote: set<char> := {'\''}

  function Unquote(value: string): (r: string)
    ensures r != [] ==> r[0] != '\'' && r[|r| - 1] != '\''
  {
    var t := StripSet(Strip(value), DoubleQuote);
    StripSetEnds(t, SingleQuote, '\'');
    StripSet(t, SingleQuote)
  }

  /** `Some((key, value))` for an assignment line, `None` for a skipped one. */
  function ParseLine(line: string): (r: Option<(string, string)>)
    ensures r.None? <==> var l := Strip(line); l == [] || l[0] == '#' || '=' !in l
    ensures r.Some? ==> '=' !in r.value.0
    ensures r.Some? ==> r.value.0 == Strip(r.value.0)
    ensures r.Some? ==> var v := r.value.1; v != [] ==> v[0] != '\'' && v[|v| - 1] != '\''
  {
    var l := Strip(line);
    if l == [] || l[0] == '#' then None
    else match IndexOf(l, '=')
      case None => None
      case Some(i) =>
        KeyClean(l, i);
        Some((Strip(l[..i]), Unquote(l[i + 1..])))
  }

  /** The key cut before the first `=` holds no `=` and is already stripped. */
  lemma KeyClean(l: string, i: nat)
    requires i <= |l| && '=' !in l[..i]
    ensures '=' !in Strip(l[..i]) && Strip(Strip(l[..i])) == Strip(l[..i])
  {
    StripIdempotent(l[..i]);
    forall c | c in Strip(l[..i]) ensures c != '=' {
      StripInside(l[..i], c);
    }
  }

  /** What each line of the file assigns, if anything. */
  function Assignments(lines: seq<string>): (r: seq<Option<(string, string)>>)
    ensures |r| == |lines| && forall i :: 0 <= i < |lines| ==> r[i] == ParseLine(lines[i])
  {
    seq(|lines|, i requires 0 <= i < |lines| => ParseLine(lines[i]))
  }

  /** Neither end of a stripped string is a stripped character. */
  lemma StripSetEnds(s: string, cs: set<char>, c: char)
    requires c in cs
    ensures var r := StripSet(s, cs); r != [] ==> r[0] != c && r[|r| - 1] != c
  {
  }

  /** Everything `StripSet` keeps was already in the string. */
  lemma StripSetInside(s: string, cs: set<char>, c: char)
    requires c in StripSet(s, cs)
    ensures c in s
  {
    var t := TrimLeft(s, cs);
    assert StripSet(s, cs) == t[..|StripSet(s, cs)|];
    assert t == s[|s| - |t|..];
  }

  lemma StripInside(s: string, c: char)
    requires c in Strip(s)
    ensures c in s
  {
    StripSetInside(s, Whitespace, c);
  }

  /** Trimming a string whose ends are not in `cs` changes nothing. */
  lemma StripSetFixed(s: string, cs: set<char>)
    requires s != [] ==> s[0] !in cs && s[|s| - 1] !in cs
    ensures StripSet(s, cs) == s
  {
    assert TrimLeft(s, cs) == s;
  }

  lemma StripIdempotent(s: string)
    ensures Strip(Strip(s)) == Strip(s)
  {
    StripSetFixed(Strip(s), Whitespace);
  }

  /** A commented-out assignment is skipped. */
  lemma CommentSkipped()
    ensures ParseLine("#K=v") == None
  {
    StripSetFixed("#K=v", Whitespace);
  }
}
