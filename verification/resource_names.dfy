/**
 Turning a binary class name into the name of its class-file resource:
 `a.b.C` becomes `a/b/C.class`.
 */
module ResourceNames {

  const ClassFileSuffix: string := ".class"

  /** `String.replace` with one-character target and replacement: every
      occurrence of `from` becomes `to`, all other characters stay put. */
  function ReplaceChar(s: string, from: char, to: char): (r: string)
    ensures |r| == |s|
    ensures forall i :: 0 <= i < |s| && s[i] == from ==> r[i] == to
    ensures forall i :: 0 <= i < |s| && s[i] != from ==> r[i] == s[i]
  {
    if s == [] then []
    else [if s[0] == from then to else s[0]] + ReplaceChar(s[1..], from, to)
  }

  /** A well-formed class resource: ends in `.class` and has no `.` before that suffix. */
  ghost predicate IsClassResource(r: string) {
    && |r| >= |ClassFileSuffix|
    && r[|r| - |ClassFileSuffix|..] == ClassFileSuffix
    && forall i :: 0 <= i < |r| - |ClassFileSuffix| ==> r[i] != '.'
  }

  /** The normalisation the resource matcher's constructor applies to each name. */
  function ResourceName(className: string): (r: string)
    ensures |r| == |className| + |ClassFileSuffix|
    ensures r[|className|..] == ClassFileSuffix
    ensures forall i :: 0 <= i < |className| && className[i] == '.' ==> r[i] == '/'
    ensures forall i :: 0 <= i < |className| && className[i] != '.' ==> r[i] == className[i]
    ensures IsClassResource(r)
  {
    ReplaceChar(className, '.', '/') + ClassFileSuffix
  }

  /** The class name a class resource stands for: drop the suffix, turn `/` back into `.`. */
  function ClassNameOf(resource: string): string
    requires |resource| >= |ClassFileSuffix|
  {
    ReplaceChar(resource[..|resource| - |ClassFileSuffix|], '/', '.')
  }

  /** Replacing `from` by a character the text never contains, and back, is the identity. */
  lemma ReplaceCharUndone(s: string, from: char, to: char)
    requires to !in s
    ensures ReplaceChar(ReplaceChar(s, from, to), to, from) == s
  {
  }

  /** Normalisation loses nothing for names without `/`: the class name can be
      read back from the resource. */
  lemma ResourceNameRoundTrip(className: string)
    requires '/' !in className
    ensures ClassNameOf(ResourceName(className)) == className
  {
  }
}
