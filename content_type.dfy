/**
 * The content type sent with the object: the library's guess for the key
 * when it has one, else a fallback chosen by the key's extension, ignoring
 * case.
 */
module ContentTypes {
  import opened Wrappers

  function LowerChar(c: char): char
  {
    if 'A' <= c <= 'Z' then (c as int + 32) as char else c
  }

  /** `str.lower()` on ASCII letters; every other character is kept. */
  function Lower(s: string): (r: string)
    ensures |r| == |s|
    ensures forall i :: 0 <= i < |s| ==> r[i] == LowerChar(s[i])
  {
    if s == [] then [] else [LowerChar(s[0])] + Lower(s[1..])
  }

  predicate EndsWith(s: string, suffix: string)
  {
    |suffix| <= |s| && s[|s| - |suffix|..] == suffix
  }

  /**
   * The content type for `key`, where `guessed` is what the extension
   * lookup of the standard library answered for it (`None` or an empty
   * string when it knows nothing).
   */
  function ContentTypeFor(key: string, guessed: Option<string>): (r: string)
    ensures r != ""
    ensures guessed.Some? && guessed.value != "" ==> r == guessed.value
    ensures !(guessed.Some? && guessed.value != "") ==>
      r in {"video/mp4", "video/webm", "application/octet-stream"}
  {
    if guessed.Some? && guessed.value != "" then guessed.value
    else if EndsWith(Lower(key), ".mp4") then "video/mp4"
    else if EndsWith(Lower(key), ".webm") then "video/webm"
    else "application/octet-stream"
  }

  lemma LowerTwice(s: string)
    ensures Lower(Lower(s)) == Lower(s)
  {
  }

  lemma LowerAppend(a: string, b: string)
    ensures Lower(a + b) == Lower(a) + Lower(b)
  {
  }

  /** The fallback does not depend on the case of the key. */
  lemma ContentTypeIgnoresCase(key: string, guessed: Option<string>)
    ensures ContentTypeFor(Lower(key), guessed) == ContentTypeFor(key, guessed)
  {
    LowerTwice(key);
  }

  /** Python's truth test on the guess: `None` and the empty string are no guess. */
  predicate NoGuess(guessed: Option<string>)
  {
    !(guessed.Some? && guessed.value != "")
  }

  /** With no guess, a key whose extension reads `.mp4` in any mix of cases is sent as MP4 video. */
  lemma Mp4Fallback(stem: string, ext: string, guessed: Option<string>)
    requires NoGuess(guessed) && Lower(ext) == ".mp4"
    ensures ContentTypeFor(stem + ext, guessed) == "video/mp4"
  {
    LowerAppend(stem, ext);
    var l := Lower(stem + ext);
    assert l[|l| - 4..] == Lower(ext);
  }

  /** With no guess, a key whose extension reads `.webm` in any mix of cases is sent as WebM video. */
  lemma WebmFallback(stem: string, ext: string, guessed: Option<string>)
    requires NoGuess(guessed) && Lower(ext) == ".webm"
    ensures ContentTypeFor(stem + ext, guessed) == "video/webm"
  {
    LowerAppend(stem, ext);
    var l := Lower(stem + ext);
    assert l[|l| - 5..] == Lower(ext);
    assert l[|l| - 4..] == "webm";
  }

  /** With no guess and neither extension, in any case, the object is sent as generic binary data. */
  lemma OctetStreamFallback(key: string, guessed: Option<string>)
    requires NoGuess(guessed)
    requires !EndsWith(Lower(key), ".mp4") && !EndsWith(Lower(key), ".webm")
    ensures ContentTypeFor(key, guessed) == "application/octet-stream"
  {
  }
}
