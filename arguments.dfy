/** `get_channel_argument_from_msg`: the text after the command word of a direct message.
    Strings are sequences of characters; one character stands for one byte, which holds
    for the ASCII commands and ids this is used on. */
module Arguments {
  import opened Types

  /** Rust's `char::is_whitespace`: the Unicode White_Space property. */
  predicate IsWhitespace(c: char) {
    ('\t' <= c <= '\r') || c == ' ' || c == '\U{85}' || c == '\U{A0}' || c == '\U{1680}' ||
    ('\U{2000}' <= c <= '\U{200A}') || c == '\U{2028}' || c == '\U{2029}' ||
    c == '\U{202F}' || c == '\U{205F}' || c == '\U{3000}'
  }

  /** Number of whitespace characters at the front of `s`. */
  function LeadingWhitespace(s: string): (n: nat)
    ensures n <= |s|
    ensures forall i :: 0 <= i < n ==> IsWhitespace(s[i])
    ensures n < |s| ==> !IsWhitespace(s[n])
  {
    if s == [] || !IsWhitespace(s[0]) then 0 else 1 + LeadingWhitespace(s[1..])
  }

  /** Number of whitespace characters at the back of `s`. */
  function TrailingWhitespace(s: string): (n: nat)
    ensures n <= |s|
    ensures forall i :: |s| - n <= i < |s| ==> IsWhitespace(s[i])
    ensures n < |s| ==> !IsWhitespace(s[|s| - 1 - n])
  {
    if s == [] || !IsWhitespace(s[|s| - 1]) then 0 else 1 + TrailingWhitespace(s[..|s| - 1])
  }

  /** `str::trim`: the contiguous middle of `s` that starts and ends with a non-whitespace
      character, everything around it being whitespace. */
  function Trim(s: string): (t: string)
    ensures |t| <= |s| - LeadingWhitespace(s)
    ensures t == s[LeadingWhitespace(s)..LeadingWhitespace(s) + |t|]
    ensures t == [] || (!IsWhitespace(t[0]) && !IsWhitespace(t[|t| - 1]))
    ensures forall i :: 0 <= i < |s| && (i < LeadingWhitespace(s) || LeadingWhitespace(s) + |t| <= i) ==>
              IsWhitespace(s[i])
  {
    var rest := s[LeadingWhitespace(s)..];
    rest[..|rest| - TrailingWhitespace(rest)]
  }

  /** The command's argument: none when the trimmed content holds no space; otherwise the
      ORIGINAL content from one past the trimmed content's first space. That index is always
      in bounds, so the result is a proper suffix of the content. */
  function ChannelArgument(content: string): (r: Option<string>)
    ensures r.None? <==> ' ' !in Trim(content)
    ensures r.Some? ==> |r.value| < |content| && r.value == content[|content| - |r.value|..]
    ensures r.Some? ==> exists k :: 0 <= k < |Trim(content)| && Trim(content)[k] == ' ' && ' ' !in Trim(content)[..k] &&
                                    k + 1 <= |content| && r.value == content[k + 1..]
  {
    match IndexOf(Trim(content), ' ')
    case None => None
    case Some(spaceIdx) =>
      assert Trim(content)[spaceIdx] == ' ';
      Some(content[spaceIdx + 1..])
  }

  /** For content that does not start with whitespace, the argument is everything after the
      first space, as long as something other than whitespace follows that space. */
  lemma ArgumentAfterFirstSpace(content: string, k: nat)
    requires content == [] || !IsWhitespace(content[0])
    requires k < |content| && content[k] == ' ' && ' ' !in content[..k]
    requires exists j :: k < j < |content| && !IsWhitespace(content[j])
    ensures ChannelArgument(content) == Some(content[k + 1..])
  {
    var t := Trim(content);
    assert LeadingWhitespace(content) == 0;
    var j :| k < j < |content| && !IsWhitespace(content[j]);
    assert j < |t|;
    assert t[..k] == content[..k];
    assert t[k] == ' ';
  }

  /** Content without a space anywhere has no argument. */
  lemma NoSpaceNoArgument(content: string)
    requires ' ' !in content
    ensures ChannelArgument(content) == None
  {
  }

  /** The command sent with its argument yields the argument. */
  lemma AddCommandExample()
    ensures ChannelArgument("!add-vc-notify 123") == Some("123")
  {
    var s := "!add-vc-notify 123";
    assert s[..14] == "!add-vc-notify";
    assert !IsWhitespace(s[15]);
    ArgumentAfterFirstSpace(s, 14);
  }

  /** The command alone with a trailing space has no argument: the space is trimmed away. */
  lemma TrailingSpaceExample()
    ensures ChannelArgument("!add-vc-notify ") == None
  {
    var s := "!add-vc-notify ";
    var cmd := "!add-vc-notify";
    assert LeadingWhitespace(s) == 0;
    assert s[..14] == cmd;
    assert TrailingWhitespace(cmd) == 0;
    assert TrailingWhitespace(s) == 1;
    assert Trim(s) == cmd;
    NoSpaceNoArgument(cmd);
  }

  /** Leading whitespace shifts the slice: the index is found in the trimmed content but
      applied to the untrimmed one, so the result starts one character early for every
      leading whitespace character (here one). */
  lemma LeadingWhitespaceShiftsArgument()
    ensures ChannelArgument(" !a 1") == Some(" 1")
  {
    var s := " !a 1";
    assert LeadingWhitespace(s) == 1;
    assert Trim(s) == "!a 1";
    assert IndexOf("!a 1", ' ') == Some(2);
  }
}
