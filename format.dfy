// The slice of Go's fmt package that the conversion webhook and the BuildRun
// reconciler use to build their error messages: the `%q` verb over strings.

module Format {
  /** Go's %q verb for a string, without the escaping of special characters. */
  function Quote(s: string): (r: string)
    ensures |r| == |s| + 2 && r[0] == '"' && r[|r| - 1] == '"' && r[1..|r| - 1] == s
  {
    "\"" + s + "\""
  }

  /**
   * fmt.Sprintf restricted to the `%q` verb over string arguments: each `%q` takes the
   * next argument, and one without an argument left prints as Go prints it.
   */
  function Sprintf(format: string, args: seq<string>): string
    decreases |format|
  {
    if |format| == 0 then ""
    else if |format| >= 2 && format[0] == '%' && format[1] == 'q' then
      if |args| > 0 then Quote(args[0]) + Sprintf(format[2..], args[1..])
      else "%!q(MISSING)" + Sprintf(format[2..], args)
    else [format[0]] + Sprintf(format[1..], args)
  }

  /** A format without a `%` prints as itself. */
  lemma {:induction false} SprintfPlain(format: string, args: seq<string>)
    requires '%' !in format
    ensures Sprintf(format, args) == format
    decreases |format|
  {
    if |format| > 0 {
      assert format[0] in format;
      assert forall c :: c in format[1..] ==> c in format;
      SprintfPlain(format[1..], args);
    }
  }

  /** A `%`-free text followed by one `%q` prints the text and the quoted argument. */
  lemma {:induction false} SprintfOneQuoted(prefix: string, arg: string)
    requires '%' !in prefix
    ensures Sprintf(prefix + "%q", [arg]) == prefix + Quote(arg)
    decreases |prefix|
  {
    if |prefix| == 0 {
      assert prefix + "%q" == "%q";
      assert Sprintf("%q", [arg]) == Quote(arg) + Sprintf("", []);
    } else {
      var f := prefix + "%q";
      assert prefix[0] in prefix;
      assert f[0] == prefix[0] != '%';
      assert f[1..] == prefix[1..] + "%q";
      assert Sprintf(f, [arg]) == [prefix[0]] + Sprintf(f[1..], [arg]);
      assert forall c :: c in prefix[1..] ==> c in prefix;
      SprintfOneQuoted(prefix[1..], arg);
      assert [prefix[0]] + (prefix[1..] + Quote(arg)) == prefix + Quote(arg);
    }
  }

}
