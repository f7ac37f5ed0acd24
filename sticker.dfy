/**
 * The sticker: the tag naming a persistent browser window. It is checked
 * once, before it becomes part of the stylesheet path and of the `_STICKER`
 * property value.
 */
module Sticker {
  import opened Wrappers

  /**
   * unicode.IsLetter on the Latin-1 block (U+0000..U+00FF): Lu, Ll and Lo.
   * Code points above U+00FF are treated as not letters.
   */
  predicate IsLetter(c: char) {
    var n := c as int;
    (0x41 <= n <= 0x5A) || (0x61 <= n <= 0x7A)
    || n == 0xAA || n == 0xB5 || n == 0xBA
    || (0xC0 <= n <= 0xFF && n != 0xD7 && n != 0xF7)
  }

  /**
   * unicode.IsNumber on the Latin-1 block: the decimal digits, the
   * superscripts two, three and one, and the vulgar fractions.
   * Code points above U+00FF are treated as not numbers.
   */
  predicate IsNumber(c: char) {
    var n := c as int;
    (0x30 <= n <= 0x39) || n == 0xB2 || n == 0xB3 || n == 0xB9 || (0xBC <= n <= 0xBE)
  }

  predicate Allowed(c: char) {
    IsLetter(c) || IsNumber(c)
  }

  /** The loop of validateSticker: the index of the first rune that is neither letter nor number, or |s|. */
  function FirstRejected(s: string, i: nat): (k: nat)
    requires i <= |s|
    ensures i <= k <= |s|
    ensures forall j :: i <= j < k ==> Allowed(s[j])
    ensures k < |s| ==> !Allowed(s[k])
    decreases |s| - i
  {
    if i == |s| then i
    else if !Allowed(s[i]) then i
    else FirstRejected(s, i + 1)
  }

  const PunctuationError: string := " cannot contain punctuation"

  /**
   * validateSticker: no error exactly when every rune is a letter or a
   * number (so the empty sticker is accepted); the error names the sticker.
   */
  function ValidateSticker(s: string): (err: Option<string>)
    ensures err.None? <==> forall j :: 0 <= j < |s| ==> Allowed(s[j])
    ensures err.Some? ==> |err.value| > |s| && err.value[..|s|] == s
  {
    if FirstRejected(s, 0) < |s| then Some(s + PunctuationError) else None
  }

  const StyleDir: string := "~/.surf/styles/"
  const StyleExt: string := ".css"

  /**
   * constructStylePath: the stylesheet surf is started with, the style
   * directory, then the sticker unchanged, then the `.css` extension.
   */
  function ConstructStylePath(s: string): (p: string)
    ensures |p| == |StyleDir| + |s| + |StyleExt|
    ensures p[..|StyleDir|] == StyleDir
    ensures p[|StyleDir|..|StyleDir| + |s|] == s
    ensures p[|StyleDir| + |s|..] == StyleExt
  {
    StyleDir + s + StyleExt
  }

  /** The sticker a stylesheet path was built from, if it has the template's shape. */
  function StickerOfStylePath(p: string): (s: Option<string>)
    ensures s.Some? ==> |s.value| + |StyleDir| + |StyleExt| == |p|
  {
    if |p| >= |StyleDir| + |StyleExt| && p[..|StyleDir|] == StyleDir && p[|p| - |StyleExt|..] == StyleExt
    then Some(p[|StyleDir|..|p| - |StyleExt|])
    else None
  }

  /** The template is injective: the sticker can be read back from the path. */
  lemma StylePathRoundTrip(s: string)
    ensures StickerOfStylePath(ConstructStylePath(s)) == Some(s)
  {
  }

  /**
   * For an accepted sticker, the path stays in the style directory: after
   * the fixed prefix there is no `/`, and the only `.` is the one that
   * starts the `.css` extension.
   */
  lemma StylePathConfined(s: string)
    requires ValidateSticker(s).None?
    ensures var p := ConstructStylePath(s);
      && p[..|StyleDir|] == StyleDir
      && p[|p| - |StyleExt|..] == StyleExt
      && (forall i :: |StyleDir| <= i < |p| ==> p[i] != '/')
      && (forall i :: |StyleDir| <= i < |p| && p[i] == '.' ==> i == |p| - |StyleExt|)
  {
  }
}
