/**
 * The jar-manifest clean-up run before packaging the plugin: drop one leading
 * byte-order mark (U+FEFF), then the leading run of whitespace, and rewrite
 * the file only when that changed its text. A file is its text, or None when
 * it does not exist.
 */
module ManifestSanitizer {
  import opened Wrappers

  const Bom: char := '\U{FEFF}'

  /** The characters of a Java regular-expression `\s` without Unicode classes:
      space, tab, line feed, vertical tab, form feed and carriage return. */
  predicate IsJavaWhitespace(c: char) {
    c == ' ' || c == '\t' || c == '\n' || c == '\U{0B}' || c == '\U{0C}' || c == '\r'
  }

  predicate StartsWithBom(s: string) {
    |s| > 0 && s[0] == Bom
  }

  /** Removes the longest prefix made only of whitespace (`^\s+` replaced by ""). */
  function StripLeadingWhitespace(s: string): (r: string)
    ensures |r| <= |s| && r == s[|s| - |r|..]
    ensures forall i :: 0 <= i < |s| - |r| ==> IsJavaWhitespace(s[i])
    ensures r == [] || !IsJavaWhitespace(r[0])
    decreases |s|
  {
    if s != [] && IsJavaWhitespace(s[0]) then StripLeadingWhitespace(s[1..]) else s
  }

  /** The sanitised manifest text. */
  function Sanitize(original: string): (r: string)
    // what remains is a suffix of the original ...
    ensures |r| <= |original| && r == original[|original| - |r|..]
    // ... that does not start with whitespace ...
    ensures r == [] || !IsJavaWhitespace(r[0])
    // ... and what was cut is at most one BOM, then whitespace only
    ensures var cut := |original| - |r|;
            var bom := if StartsWithBom(original) then 1 else 0;
            bom <= cut && forall i :: bom <= i < cut ==> IsJavaWhitespace(original[i])
    // a second BOM is kept
    ensures |original| >= 2 && original[0] == Bom && original[1] == Bom ==> r == original[1..]
    // text starting with neither a BOM nor whitespace is untouched
    ensures !StartsWithBom(original) && (original == [] || !IsJavaWhitespace(original[0])) ==>
              r == original
  {
    var withoutBom := if StartsWithBom(original) then original[1..] else original;
    StripLeadingWhitespace(withoutBom)
  }

  /** `sanitizeManifestFile`: the file's contents afterwards, and whether it was written. */
  method SanitizeManifestFile(file: Option<string>) returns (after: Option<string>, written: bool)
    ensures file == None ==> after == None && !written
    ensures file == Some([]) ==> after == file && !written
    ensures file.Some? ==> after == Some(Sanitize(file.value))
    ensures written <==> file.Some? && Sanitize(file.value) != file.value
  {
    if file == None {
      return None, false;
    }
    var original := file.value;
    if |original| == 0 {
      return file, false;
    }
    var sanitized := original;
    if StartsWithBom(sanitized) {
      sanitized := sanitized[1..];
    }
    sanitized := StripLeadingWhitespace(sanitized);
    if sanitized == original {
      return file, false;
    }
    after, written := Some(sanitized), true;
  }
}
