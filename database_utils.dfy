/** The connection URL builder shared by the database commands (database/utils.go). */
module DbUtils {
  import opened Results
  import opened GoStrings
  import opened Config

  const Scheme := "postgres://"
  const SslQuery := "sslmode=disable"

  /** The PostgreSQL URL for a profile: user, password, host, port and database in that order,
      inserted verbatim (nothing is escaped), with TLS disabled. Total: it never fails. */
  function FormatRemoteConnectionString(c: ConnectionParams): (dsn: string)
    ensures HasPrefix(dsn, Scheme)
    ensures |dsn| >= |Scheme| + |"?" + SslQuery| && dsn[|dsn| - |"?" + SslQuery|..] == "?" + SslQuery
    ensures |dsn| == |Scheme| + |c.user| + 1 + |c.password| + 1 + |c.host| + 1 + |c.port| + 1 + |c.dbName| + 1 + |SslQuery|
  {
    Scheme + c.user + ":" + c.password + "@" + c.host + ":" + c.port + "/" + c.dbName + "?" + SslQuery
  }

  /** The text before and after the first occurrence of `c`. */
  function Cut(s: string, c: char): Option<(string, string)>
  {
    if c in s then
      var i := FirstIndex(s, c);
      Some((s[..i], s[i + 1..]))
    else None
  }

  lemma CutAt(x: string, c: char, y: string)
    requires c !in x
    ensures Cut(x + [c] + y, c) == Some((x, y))
  {
    FirstIndexAfter(x, c, y);
    var s := x + [c] + y;
    assert s[..|x|] == x;
    assert s[|x| + 1..] == y;
  }

  /** The parts of a connection URL, as read back from its text. */
  datatype UrlFields = UrlFields(user: string, password: string, host: string, port: string, dbName: string, query: string)

  /** Reads a URL of the shape the formatter produces, cutting at the first ':', '@', ':', '/'
      and '?' in turn. */
  function ParseConnectionString(dsn: string): Option<UrlFields>
  {
    if !HasPrefix(dsn, Scheme) then None
    else
      match Cut(dsn[|Scheme|..], ':')
      case None => None
      case Some((user, r1)) =>
        match Cut(r1, '@')
        case None => None
        case Some((password, r2)) =>
          match Cut(r2, ':')
          case None => None
          case Some((host, r3)) =>
            match Cut(r3, '/')
            case None => None
            case Some((port, r4)) =>
              match Cut(r4, '?')
              case None => None
              case Some((dbName, query)) => Some(UrlFields(user, password, host, port, dbName, query))
  }

  lemma ParseFromCuts(dsn: string, f: UrlFields, r1: string, r2: string, r3: string, r4: string)
    requires HasPrefix(dsn, Scheme)
    requires Cut(dsn[|Scheme|..], ':') == Some((f.user, r1))
    requires Cut(r1, '@') == Some((f.password, r2))
    requires Cut(r2, ':') == Some((f.host, r3))
    requires Cut(r3, '/') == Some((f.port, r4))
    requires Cut(r4, '?') == Some((f.dbName, f.query))
    ensures ParseConnectionString(dsn) == Some(f)
  {
  }

  /** The URL carries every field in order and unchanged: as long as no field contains the
      delimiter that ends it, reading the URL back gives the profile's fields and the TLS setting. */
  lemma FormatReadsBack(c: ConnectionParams)
    requires ':' !in c.user && '@' !in c.password && ':' !in c.host && '/' !in c.port && '?' !in c.dbName
    ensures ParseConnectionString(FormatRemoteConnectionString(c))
         == Some(UrlFields(c.user, c.password, c.host, c.port, c.dbName, SslQuery))
  {
    var dsn := FormatRemoteConnectionString(c);
    var r4 := c.dbName + "?" + SslQuery;
    var r3 := c.port + "/" + r4;
    var r2 := c.host + ":" + r3;
    var r1 := c.password + "@" + r2;
    var r0 := c.user + ":" + r1;
    assert dsn == Scheme + r0;
    assert dsn[|Scheme|..] == r0;
    CutAt(c.user, ':', r1);
    CutAt(c.password, '@', r2);
    CutAt(c.host, ':', r3);
    CutAt(c.port, '/', r4);
    CutAt(c.dbName, '?', SslQuery);
    ParseFromCuts(dsn, UrlFields(c.user, c.password, c.host, c.port, c.dbName, SslQuery), r1, r2, r3, r4);
  }
}
