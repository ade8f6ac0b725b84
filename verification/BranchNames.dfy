/** Bounded, ref-safe names for task branches (projects/manager.py). */
module BranchNames {
  import opened Wrappers

  predicate IsSlugChar(c: char) {
    'a' <= c <= 'z' || '0' <= c <= '9'
  }

  predicate IsIdChar(c: char) {
    'A' <= c <= 'Z' || IsSlugChar(c)
  }

  predicate IsTaskId(s: string) {
    1 <= |s| <= 64 && IsIdChar(s[0]) && forall i :: 0 <= i < |s| ==> IsIdChar(s[i]) || s[i] in "._-"
  }

  /** Every maximal run of other characters becomes one hyphen. */
  function Hyphenate(s: string): string {
    if s == "" then ""
    else
      var rest := Hyphenate(s[1..]);
      if IsSlugChar(s[0]) then [s[0]] + rest
      else if rest != "" && rest[0] == '-' then rest
      else "-" + rest
  }

  function TrimLeft(s: string): string {
    if s != "" && s[0] == '-' then TrimLeft(s[1..]) else s
  }

  function TrimRight(s: string): string {
    if s != "" && s[|s| - 1] == '-' then TrimRight(s[..|s| - 1]) else s
  }

  function OrTask(s: string): string {
    if s == "" then "task" else s
  }

  /** The slug of a description already reduced to lower-case ASCII. */
  function Slug(text: string): string {
    OrTask(TrimRight(TrimLeft(Hyphenate(text))))
  }

  function Available(id: string): nat {
    if |id| >= 113 then 1 else 113 - |id|
  }

  function Cut(s: string, n: nat): string {
    if |s| <= n then s else s[..n]
  }

  function TaskSlug(id: string, text: string): string {
    OrTask(TrimRight(Cut(Slug(text), Available(id))))
  }

  function TaskBranchName(id: string, text: string): Result<string> {
    if !IsTaskId(id) then Err(Invalid) else Ok("agent/" + id + "-" + TaskSlug(id, text))
  }

  // ---------------------------------------------------------------- what a slug looks like

  /** Slug characters and single hyphens only. */
  predicate Plain(s: string) {
    && (forall i :: 0 <= i < |s| ==> IsSlugChar(s[i]) || s[i] == '-')
    && (forall i :: 0 <= i < |s| - 1 ==> s[i] != '-' || s[i + 1] != '-')
  }

  predicate IsSlug(s: string) {
    s != "" && Plain(s) && s[0] != '-' && s[|s| - 1] != '-'
  }

  lemma {:induction false} HyphenateIsPlain(s: string)
    ensures Plain(Hyphenate(s))
  {
    if s != "" {
      HyphenateIsPlain(s[1..]);
    }
  }

  lemma {:induction false} TrimLeftIsPlain(s: string)
    requires Plain(s)
    ensures Plain(TrimLeft(s)) && (TrimLeft(s) != "" ==> TrimLeft(s)[0] != '-')
  {
    if s != "" && s[0] == '-' {
      TrimLeftIsPlain(s[1..]);
    }
  }

  /** Trimming on the right keeps the start and ends without a hyphen; a start that is no hyphen stays. */
  lemma {:induction false} TrimRightIsPlain(s: string)
    requires Plain(s)
    ensures TrimRight(s) <= s && Plain(TrimRight(s))
    ensures TrimRight(s) != "" ==> TrimRight(s)[|TrimRight(s)| - 1] != '-'
    ensures s != "" && s[0] != '-' ==> TrimRight(s) != ""
  {
    if s != "" && s[|s| - 1] == '-' {
      TrimRightIsPlain(s[..|s| - 1]);
    }
  }

  lemma {:induction false} SlugIsKept(s: string)
    requires Plain(s)
    ensures Hyphenate(s) == s
  {
    if s != "" {
      SlugIsKept(s[1..]);
    }
  }

  lemma SlugIsSlug(text: string)
    ensures IsSlug(Slug(text))
  {
    HyphenateIsPlain(text);
    TrimLeftIsPlain(Hyphenate(text));
    TrimRightIsPlain(TrimLeft(Hyphenate(text)));
  }

  /** For every accepted task id and every description: the name is short enough, its slug is well formed
      even after being cut, and making a slug of the slug changes nothing. */
  lemma BranchNameIsSafe(id: string, text: string)
    requires IsTaskId(id)
    ensures var slug := TaskSlug(id, text);
            && TaskBranchName(id, text) == Ok("agent/" + id + "-" + slug)
            && |TaskBranchName(id, text).value| <= 120
            && IsSlug(slug) && Slug(slug) == slug
            && (|Slug(text)| <= Available(id) ==> slug == Slug(text))
  {
    SlugIsSlug(text);
    var cut := Cut(Slug(text), Available(id));
    TrimRightIsPlain(cut);
    var slug := TaskSlug(id, text);
    SlugIsKept(slug);
  }
}
