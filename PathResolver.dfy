/**
 Mapping a changed file's path to the identifier the listener works with.
 Both watched trees use the same extraction: the path from one character
 before the end of the root prefix up to the first '.' anywhere in the path.
 The root prefix itself (the length of the configured directory string) is a
 parameter.
 */
module PathResolver {
  import opened JsString

  /** Where the extraction starts: `rootLen - 1`, clamped at 0 as substring does. */
  function KeyStart(rootLen: nat): nat
  {
    if rootLen == 0 then 0 else rootLen - 1
  }

  /** `filename.substring(rootLen - 1, filename.indexOf("."))`: the script GUID
      of a changed script file, and the raw include key of an include file. */
  function Extract(filename: string, rootLen: nat): (id: string)
    ensures |id| <= |filename|
  {
    JsSubstring(filename, rootLen - 1, IndexOf(filename, '.'))
  }

  /** The include key: the extraction with every backslash turned into '/'. */
  function IncludeKey(filename: string, rootLen: nat): (key: string)
    ensures |key| == |Extract(filename, rootLen)|
    ensures '\\' !in key
  {
    ReplaceChar(Extract(filename, rootLen), '\\', '/')
  }

  /** Each character of the include key is the raw extraction's character at
      the same position, with a backslash turned into '/'. */
  lemma IncludeKeyAt(filename: string, rootLen: nat, i: nat)
    requires i < |Extract(filename, rootLen)|
    ensures IncludeKey(filename, rootLen)[i] ==
            (if Extract(filename, rootLen)[i] == '\\' then '/' else Extract(filename, rootLen)[i])
  {
  }

  /** When the first '.' lies at or after the start, the identifier runs from the
      start up to (not including) that first dot, and so holds no dot. */
  lemma ExtractEndsAtFirstDot(filename: string, rootLen: nat, d: nat)
    requires d < |filename| && filename[d] == '.' && '.' !in filename[..d]
    requires KeyStart(rootLen) <= d
    ensures Extract(filename, rootLen) == filename[KeyStart(rootLen)..d]
    ensures '.' !in Extract(filename, rootLen)
  {
    JsSubstringInRange(filename, KeyStart(rootLen), d);
    assert Extract(filename, rootLen) == JsSubstring(filename, KeyStart(rootLen), d);
    assert forall i :: 0 <= i < d - KeyStart(rootLen) ==>
      filename[KeyStart(rootLen)..d][i] == filename[..d][KeyStart(rootLen) + i];
  }

  /** A path without any '.' gives indexOf = -1, which substring clamps to 0 and
      swaps: the identifier is the LEADING `rootLen - 1` characters. */
  lemma ExtractWithoutDot(filename: string, rootLen: nat)
    requires '.' !in filename
    ensures Extract(filename, rootLen) == filename[..Min(KeyStart(rootLen), |filename|)]
  {
    JsSubstringSwaps(filename, rootLen - 1, -1);
    JsSubstringNegativeIsZero(filename, -1, rootLen - 1);
  }

  /** A '.' before the start (a dotted directory above the root, say) makes the
      arguments swap: the identifier runs from that dot up to the start, or to
      the end of the path when the path is shorter than that. */
  lemma ExtractDotBeforeStart(filename: string, rootLen: nat, d: nat)
    requires d < |filename| && filename[d] == '.' && '.' !in filename[..d]
    requires d < KeyStart(rootLen)
    ensures Extract(filename, rootLen) == filename[d..Min(KeyStart(rootLen), |filename|)]
    ensures Extract(filename, rootLen)[0] == '.'
  {
  }

  /** The include key is the script extraction, normalised: where the raw
      extraction holds no backslash the include key equals it. */
  lemma IncludeKeyWithoutBackslash(filename: string, rootLen: nat)
    requires '\\' !in Extract(filename, rootLen)
    ensures IncludeKey(filename, rootLen) == Extract(filename, rootLen)
  {
    ReplaceCharAbsent(Extract(filename, rootLen), '\\', '/');
  }

  /** A root given relatively ("./scripts", 9 characters) against the path the
      watcher reports ("scripts/MyCard.ttslua"): the start lands on the name. */
  lemma ExtractRelativeRootExample()
    ensures Extract("scripts/MyCard.ttslua", 9) == "MyCard"
  {
    var f := "scripts/MyCard.ttslua";
    assert f[..14] == "scripts/MyCard" && f[8..14] == "MyCard";
    ExtractEndsAtFirstDot(f, 9, 14);
  }

  /** Several dots: the identifier stops at the first one. */
  lemma ExtractMultiDotExample()
    ensures Extract("scripts/Deck.min.ttslua", 9) == "Deck"
  {
    var f := "scripts/Deck.min.ttslua";
    assert f[..12] == "scripts/Deck" && f[8..12] == "Deck";
    ExtractEndsAtFirstDot(f, 9, 12);
  }

  /** A root with a trailing separator ("/proj/scripts/", 14 characters): the
      start lies one character before the name, on the separator. */
  lemma ExtractTrailingSlashExample()
    ensures Extract("/proj/scripts/MyCard.ttslua", 14) == "/MyCard"
  {
    var f := "/proj/scripts/MyCard.ttslua";
    assert f[..20] == "/proj/scripts/MyCard" && f[13..20] == "/MyCard";
    ExtractEndsAtFirstDot(f, 14, 20);
  }

  /** A Windows-style path under the include root "./include" (9 characters):
      the raw extraction keeps the backslash. */
  lemma ExtractWindowsExample()
    ensures Extract("include\\sub\\Util.ttslua", 9) == "sub\\Util"
  {
    var f := "include\\sub\\Util.ttslua";
    assert f[..16] == "include\\sub\\Util" && f[8..16] == "sub\\Util";
    ExtractEndsAtFirstDot(f, 9, 16);
  }

  /** ... and the include key turns it into a forward slash. */
  lemma IncludeKeyWindowsExample()
    ensures IncludeKey("include\\sub\\Util.ttslua", 9) == "sub/Util"
  {
    ExtractWindowsExample();
    ReplaceCharExample(Extract("include\\sub\\Util.ttslua", 9));
  }

  /** A POSIX path under the include root "/proj/include/" (14 characters):
      the extraction keeps the separator before the name. */
  lemma ExtractPosixIncludeExample()
    ensures Extract("/proj/include/sub/Util.ttslua", 14) == "/sub/Util"
  {
    var f := "/proj/include/sub/Util.ttslua";
    assert f[..22] == "/proj/include/sub/Util" && f[13..22] == "/sub/Util";
    ExtractEndsAtFirstDot(f, 14, 22);
  }
}
