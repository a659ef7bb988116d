/** `Runnable.get_name` (`core/runnables/base.py`), over ASCII text: letters are the only
    cased characters, as in Python's `str.isupper`, `str.lower` and `str.title`. */
module Runnable {
  import opened Wrappers

  predicate IsUpper(c: char) { 'A' <= c <= 'Z' }
  predicate IsLower(c: char) { 'a' <= c <= 'z' }
  predicate Cased(c: char) { IsUpper(c) || IsLower(c) }

  function ToUpper(c: char): (u: char)
    ensures Cased(u) == Cased(c) && (Cased(c) ==> IsUpper(u))
    ensures IsLower(c) ==> u as int - 'A' as int == c as int - 'a' as int
    ensures !IsLower(c) ==> u == c
  {
    if IsLower(c) then (c as int - 'a' as int + 'A' as int) as char else c
  }

  function ToLower(c: char): (l: char)
    ensures Cased(l) == Cased(c) && (Cased(c) ==> IsLower(l))
    ensures IsUpper(c) ==> l as int - 'a' as int == c as int - 'A' as int
    ensures !IsUpper(c) ==> l == c
  {
    if IsUpper(c) then (c as int - 'A' as int + 'a' as int) as char else c
  }

  /** Two characters are the same letter up to case, or the same uncased character. */
  predicate SameLetter(a: char, b: char) {
    ToLower(a) == ToLower(b)
  }

  /** `str.lower()`. */
  function Lower(s: string): (r: string)
    ensures |r| == |s|
    ensures forall i :: 0 <= i < |s| ==> r[i] == ToLower(s[i])
    ensures forall i :: 0 <= i < |s| ==> SameLetter(r[i], s[i]) && Cased(r[i]) == Cased(s[i]) && !IsUpper(r[i])
  {
    seq(|s|, i requires 0 <= i < |s| => ToLower(s[i]))
  }

  /** `str.title()` as a left-to-right scan remembering whether the previous character was
      cased. */
  function TitleFrom(s: string, prevCased: bool): (r: string)
    ensures |r| == |s|
    ensures |s| > 0 ==> r[0] == (if prevCased then ToLower(s[0]) else ToUpper(s[0]))
    ensures forall i :: 0 < i < |s| ==>
              r[i] == (if Cased(s[i - 1]) then ToLower(s[i]) else ToUpper(s[i]))
    decreases |s|
  {
    if s == [] then []
    else [if prevCased then ToLower(s[0]) else ToUpper(s[0])] + TitleFrom(s[1..], Cased(s[0]))
  }

  /** `str.title()`: a letter is upper-cased when it starts a word (the character just
      before it is not cased) and lower-cased otherwise; other characters are kept. */
  function Title(s: string): (r: string)
    ensures |r| == |s|
    ensures forall i :: 0 <= i < |s| ==>
              r[i] == (if i > 0 && Cased(s[i - 1]) then ToLower(s[i]) else ToUpper(s[i]))
    ensures forall i :: 0 <= i < |s| ==> SameLetter(r[i], s[i]) && Cased(r[i]) == Cased(s[i]) && (!Cased(s[i]) ==> r[i] == s[i])
  {
    var r := TitleFrom(s, false);
    forall i | 0 <= i < |s| ensures r[i] == ToLower(s[i]) || r[i] == ToUpper(s[i]) {
      if i > 0 {
        assert r[i] == (if Cased(s[i - 1]) then ToLower(s[i]) else ToUpper(s[i]));
      }
    }
    r
  }

  /** `name or self.name or self.__class__.__name__`. */
  function BaseName(name: Option<string>, selfName: Option<string>, className: string): (b: string)
    ensures name.Some? && name.value != "" ==> b == name.value
    ensures !(name.Some? && name.value != "") && selfName.Some? && selfName.value != "" ==> b == selfName.value
    ensures !(name.Some? && name.value != "") && !(selfName.Some? && selfName.value != "") ==> b == className
  {
    if name.Some? && name.value != "" then name.value
    else if selfName.Some? && selfName.value != "" then selfName.value
    else className
  }

  /** `get_name(suffix, name=name)`. A Python class name is never empty, so the base name
      always has a first character. */
  function GetName(suffix: Option<string>, name: Option<string>, selfName: Option<string>,
                   className: string): (r: string)
    requires className != ""
    ensures var b := BaseName(name, selfName, className);
            && |b| <= |r| && r[..|b|] == b
            && (suffix.None? || suffix.value == "" ==> r == b)
            && (suffix.Some? && suffix.value != "" && IsUpper(b[0]) ==>
                  && |r| == |b| + |suffix.value|
                  && forall i :: 0 <= i < |suffix.value| ==>
                       r[|b| + i] == (if i > 0 && Cased(suffix.value[i - 1]) then ToLower(suffix.value[i])
                                      else ToUpper(suffix.value[i])))
            && (suffix.Some? && suffix.value != "" && !IsUpper(b[0]) ==>
                  && |r| == |b| + 1 + |suffix.value| && r[|b|] == '_'
                  && forall i :: 0 <= i < |suffix.value| ==> r[|b| + 1 + i] == ToLower(suffix.value[i]))
  {
    var b := BaseName(name, selfName, className);
    if suffix.Some? && suffix.value != "" then
      if IsUpper(b[0]) then b + Title(suffix.value) else b + "_" + Lower(suffix.value)
    else b
  }

  /** Title-casing and lower-casing keep which characters are cased, so both are idempotent. */
  lemma {:induction false} CaseFoldingIdempotent(s: string)
    ensures Title(Title(s)) == Title(s)
    ensures Lower(Lower(s)) == Lower(s)
  {
    var t := Title(s);
    forall i | 0 <= i < |s| ensures Title(t)[i] == t[i] {
      if i > 0 {
        assert Cased(t[i - 1]) == Cased(s[i - 1]);
      }
    }
  }

  /** An upper-case base name gets the suffix title-cased and glued on; otherwise the
      suffix is lower-cased behind an underscore. Either way the base name is a prefix and
      the suffix's characters follow in order, each the same letter up to case. */
  lemma SuffixFollowsBase(suffix: string, name: Option<string>, selfName: Option<string>,
                          className: string)
    requires className != "" && suffix != ""
    ensures var b := BaseName(name, selfName, className);
            var r := GetName(Some(suffix), name, selfName, className);
            var sep := if IsUpper(b[0]) then 0 else 1;
            && |r| == |b| + sep + |suffix|
            && forall i :: 0 <= i < |suffix| ==>
                 && SameLetter(r[|b| + sep + i], suffix[i])
                 && Cased(r[|b| + sep + i]) == Cased(suffix[i])
                 && (!Cased(suffix[i]) ==> r[|b| + sep + i] == suffix[i])
  {
    var b := BaseName(name, selfName, className);
    var r := GetName(Some(suffix), name, selfName, className);
    if IsUpper(b[0]) {
      assert r == b + Title(suffix);
      assert forall i :: 0 <= i < |suffix| ==> r[|b| + i] == Title(suffix)[i];
    } else {
      assert r == b + "_" + Lower(suffix);
      assert forall i :: 0 <= i < |suffix| ==> r[|b| + 1 + i] == Lower(suffix)[i] == ToLower(suffix[i]);
    }
  }
}
