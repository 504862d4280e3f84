/** The crate's error value (src/error.rs): a message-carrying error whose
    `Display` and `Debug` renderings are the same fixed text around the
    message. */
module Errors {
  import opened Results

  datatype Error = Error(msg: string)

  /** The text that opens every rendered error. */
  const DisplayPrefix: string := "Error: {\n  msg: "

  /** The text that closes every rendered error. */
  const DisplaySuffix: string := "\n}"

  /** `Error::new`: keeps the message exactly as given. */
  function New(msg: string): (e: Error)
    ensures e.msg == msg
  {
    Error(msg)
  }

  /** `Clone` derived on `Error`. */
  function Clone(e: Error): (c: Error)
    ensures c.msg == e.msg
  {
    Error(e.msg)
  }

  /** `impl Display for Error`. */
  function Display(e: Error): (s: string)
  {
    DisplayPrefix + e.msg + DisplaySuffix
  }

  /** `impl Debug for Error`: written out separately in the source, with the
      same format string as `Display`. */
  function Debug(e: Error): (s: string)
    ensures s == Display(e)
  {
    "Error: {\n  msg: " + e.msg + "\n}"
  }

  /** Reads the message back out of a rendered error; `None` when the text
      is not shaped like one. This is the partner of `Display`. */
  function MessageOf(s: string): (m: Option<string>)
    ensures m.Some? <==> (&& |s| >= |DisplayPrefix| + |DisplaySuffix|
                          && s[..|DisplayPrefix|] == DisplayPrefix
                          && s[|s| - |DisplaySuffix|..] == DisplaySuffix)
    ensures m.Some? ==> s == DisplayPrefix + m.value + DisplaySuffix
  {
    if |s| >= |DisplayPrefix| + |DisplaySuffix|
       && s[..|DisplayPrefix|] == DisplayPrefix
       && s[|s| - |DisplaySuffix|..] == DisplaySuffix
    then
      var m := s[|DisplayPrefix|..|s| - |DisplaySuffix|];
      assert s == s[..|DisplayPrefix|] + m + s[|s| - |DisplaySuffix|..];
      Some(m)
    else None
  }

  /** The rendered text carries the whole message: it can be read back. */
  lemma DisplayRoundTrip(e: Error)
    ensures MessageOf(Display(e)) == Some(e.msg)
  {
    var s := Display(e);
    assert s[..|DisplayPrefix|] == DisplayPrefix;
    assert s[|s| - |DisplaySuffix|..] == DisplaySuffix;
    assert s[|DisplayPrefix|..|s| - |DisplaySuffix|] == e.msg;
  }

  /** Two errors render the same exactly when they carry the same message. */
  lemma DisplayInjective(a: Error, b: Error)
    ensures Display(a) == Display(b) <==> a == b
  {
    if Display(a) == Display(b) {
      DisplayRoundTrip(a);
      DisplayRoundTrip(b);
    }
  }
}
