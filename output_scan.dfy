/** Detection of a postinstall script in npm's captured output: a literal
    substring match, as JavaScript's `String.prototype.includes`. */
module OutputScan {

  /** `pattern` occurs in `text` starting at index `i`. */
  predicate OccursAt(text: string, pattern: string, i: nat) {
    i + |pattern| <= |text| && text[i..i + |pattern|] == pattern
  }

  /** `text.includes(pattern)`. */
  predicate Contains(text: string, pattern: string) {
    exists i: nat :: i <= |text| && OccursAt(text, pattern, i)
  }

  /** The line npm prints when it runs the package's own postinstall script. */
  function PostinstallMarker(nameAndVersion: string): (marker: string)
    ensures |marker| == |nameAndVersion| + 12 && marker[..|nameAndVersion|] == nameAndVersion
  {
    nameAndVersion + " postinstall"
  }

  /** The output declares that the package `nameAndVersion` ran its postinstall script. */
  predicate DeclaresPostinstall(out: string, nameAndVersion: string) {
    Contains(out, PostinstallMarker(nameAndVersion))
  }

  /** A pattern surrounded by any text is found. */
  lemma ContainsInfix(before: string, pattern: string, after: string)
    ensures Contains(before + pattern + after, pattern)
  {
    var text := before + pattern + after;
    assert text[|before|..|before| + |pattern|] == pattern;
    assert OccursAt(text, pattern, |before|);
  }

  /** A match survives more output around it. */
  lemma ContainsExtend(text: string, pattern: string, before: string, after: string)
    requires Contains(text, pattern)
    ensures Contains(before + text + after, pattern)
  {
    var i: nat :| i <= |text| && OccursAt(text, pattern, i);
    var big := before + text + after;
    assert big[|before| + i..|before| + i + |pattern|] == text[i..i + |pattern|];
    assert OccursAt(big, pattern, |before| + i);
  }

  /** Output shorter than the pattern never matches. */
  lemma ShortTextMisses(text: string, pattern: string)
    requires |text| < |pattern|
    ensures !Contains(text, pattern)
  {
  }

  /** npm's line `> my-pkg@1.0.0 postinstall` sets the flag for `my-pkg@1.0.0`. */
  lemma MarkerLineDetected(before: string, after: string)
    ensures DeclaresPostinstall(before + "> my-pkg@1.0.0 postinstall" + after, "my-pkg@1.0.0")
  {
    assert "> my-pkg@1.0.0 postinstall" == "> " + PostinstallMarker("my-pkg@1.0.0");
    assert before + "> my-pkg@1.0.0 postinstall" + after
        == (before + "> ") + PostinstallMarker("my-pkg@1.0.0") + after;
    ContainsInfix(before + "> ", PostinstallMarker("my-pkg@1.0.0"), after);
  }
}
