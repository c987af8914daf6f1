/**
 * Log messages as handed to spdlog: a format string with "{}" placeholders and
 * the argument values that fill them, plus the connection and stream prefixes
 * that the CONN/STREAM logging macros put in front of a caller's format.
 */
module Messages {

  /** An argument value of a log statement. */
  datatype Arg = Num(n: int) | Text(s: string)

  /** A format string and its arguments, before spdlog renders them. */
  datatype Message = Message(format: string, args: seq<Arg>)

  /** A network connection, as far as logging sees it: its id. */
  datatype Connection = Connection(id: nat)

  /** An HTTP stream: the connection it runs on, if any, and its id. */
  datatype Stream = Stream(connection: Option<Connection>, streamId: nat)

  datatype Option<T> = None | Some(value: T)

  const ConnTag: string := "[C{}] "
  const StreamTag: string := "[C{}][S{}] "

  /**
   * Number of literal "{}" pairs in `s`, scanning left to right. This is not
   * fmt's field count: "{{" and "}}" escapes, indexed fields such as "{0}" and
   * fields with a format spec such as "{:x}" are not treated specially.
   */
  function Placeholders(s: string): (n: nat)
  {
    if |s| < 2 then 0
    else if s[0] == '{' && s[1] == '}' then 1 + Placeholders(s[2..])
    else Placeholders(s[1..])
  }

  /** A message whose placeholders and arguments match one for one. */
  predicate Balanced(m: Message)
  {
    Placeholders(m.format) == |m.args|
  }

  /**
   * Placeholders of a concatenation add up, provided the left part does not
   * end in an open brace that the right part could close.
   */
  lemma {:induction false} PlaceholdersAppend(p: string, f: string)
    requires p == [] || p[|p| - 1] != '{'
    ensures Placeholders(p + f) == Placeholders(p) + Placeholders(f)
  {
    if p == [] {
      assert p + f == f;
    } else if |p| == 1 {
      assert (p + f)[1..] == f;
    } else if p[0] == '{' && p[1] == '}' {
      assert (p + f)[2..] == p[2..] + f;
      PlaceholdersAppend(p[2..], f);
    } else {
      assert (p + f)[1..] == p[1..] + f;
      PlaceholdersAppend(p[1..], f);
    }
  }

  lemma ConnTagPlaceholders()
    ensures Placeholders(ConnTag) == 1
  {
  }

  lemma StreamTagPlaceholders()
    ensures Placeholders(StreamTag) == 2
  {
    assert Placeholders("[C{}]") == 1;
    assert Placeholders("[S{}] ") == 1;
    assert StreamTag == "[C{}]" + "[S{}] ";
    PlaceholdersAppend("[C{}]", "[S{}] ");
  }

  /**
   * The message of a connection log: "[C{}] " in front of the format and the
   * connection id in front of the arguments.
   */
  function ConnPrefixed(m: Message, conn: Connection): (r: Message)
    ensures |r.format| == |ConnTag| + |m.format| && |r.args| == 1 + |m.args|
    ensures r.format[..|ConnTag|] == ConnTag && r.format[|ConnTag|..] == m.format
    ensures r.args[0] == Num(conn.id) && r.args[1..] == m.args
    ensures Balanced(r) <==> Balanced(m)
  {
    ConnTagPlaceholders();
    PlaceholdersAppend(ConnTag, m.format);
    Message(ConnTag + m.format, [Num(conn.id)] + m.args)
  }

  /** The connection id a stream log reports: 0 when the stream has no connection. */
  function StreamConnectionId(s: Stream): (id: nat)
  {
    match s.connection
    case Some(c) => c.id
    case None => 0
  }

  /**
   * The message of a stream log: "[C{}][S{}] " in front of the format, and the
   * connection id (0 without a connection) and the stream id in front of the
   * arguments.
   */
  function StreamPrefixed(m: Message, s: Stream): (r: Message)
    ensures |r.format| == |StreamTag| + |m.format| && |r.args| == 2 + |m.args|
    ensures r.format[..|StreamTag|] == StreamTag && r.format[|StreamTag|..] == m.format
    ensures r.args[0] == Num(if s.connection.Some? then s.connection.value.id else 0)
    ensures r.args[1] == Num(s.streamId) && r.args[2..] == m.args
    ensures Balanced(r) <==> Balanced(m)
  {
    StreamTagPlaceholders();
    PlaceholdersAppend(StreamTag, m.format);
    Message(StreamTag + m.format, [Num(StreamConnectionId(s)), Num(s.streamId)] + m.args)
  }
}
