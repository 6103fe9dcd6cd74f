/** `EmailService`: sends a user the credentials of a ready server. The
    settings come from the environment (each `None` when unset); the SMTP
    exchange is a parameter saying whether it raised. The HTML layout of the
    message is not modelled, only the values rendered into it. */
module EmailService {
  import opened Common

  const DefaultSmtpServer := "smtp.sendgrid.net"
  const DefaultSmtpPort := 587
  const DefaultFromEmail := "noreply@nemordp.com"
  const RdpPort := 3389

  /** The settings read by `__init__`. */
  datatype Config = Config(smtpServer: string, smtpPort: int, smtpUsername: Option<string>,
                           smtpPassword: Option<string>, fromEmail: string)

  /** `__init__`: each setting is the environment value when set, else its
      default; username and password have none. `portEnv` is
      `SMTP_PORT` already read as an integer. */
  function NewConfig(serverEnv: Option<string>, portEnv: Option<int>, usernameEnv: Option<string>,
                     passwordEnv: Option<string>, fromEnv: Option<string>): (c: Config)
    ensures serverEnv.None? ==> c.smtpServer == DefaultSmtpServer
    ensures serverEnv.Some? ==> c.smtpServer == serverEnv.value
    ensures portEnv.None? ==> c.smtpPort == DefaultSmtpPort
    ensures portEnv.Some? ==> c.smtpPort == portEnv.value
    ensures fromEnv.None? ==> c.fromEmail == DefaultFromEmail
    ensures fromEnv.Some? ==> c.fromEmail == fromEnv.value
    ensures c.smtpUsername == usernameEnv && c.smtpPassword == passwordEnv
  {
    Config(if serverEnv.Some? then serverEnv.value else DefaultSmtpServer,
           if portEnv.Some? then portEnv.value else DefaultSmtpPort,
           usernameEnv, passwordEnv,
           if fromEnv.Some? then fromEnv.value else DefaultFromEmail)
  }

  /** `str(os_type).split('.')[-1].title()`: the enum member name or plain
      value after the last dot, title-cased. */
  function OsLabel(osType: string): (r: string)
    ensures '.' !in r
    ensures |r| <= |osType|
    ensures Title(r) == r
  {
    var seg := LastSegment(osType, '.');
    TitleIdempotent(seg);
    assert '.' !in Title(seg) by {
      forall k | 0 <= k < |seg| ensures Title(seg)[k] != '.' {
        TitleKeepsNonLetters(seg, false, k);
      }
    }
    Title(seg)
  }

  /** Title-casing changes letters only, so a character that is not a
      letter stays where it was, and a letter stays a letter. */
  lemma {:induction false} TitleKeepsNonLetters(s: string, afterCased: bool, k: nat)
    requires k < |s|
    ensures IsCased(TitleFrom(s, afterCased)[k]) <==> IsCased(s[k])
    ensures !IsCased(s[k]) ==> TitleFrom(s, afterCased)[k] == s[k]
  {
    if k > 0 {
      TitleKeepsNonLetters(s[1..], IsCased(s[0]), k - 1);
    }
  }

  /** The subject line of the credentials email. */
  function Subject(osType: string): string
  {
    "Your NemoRDP " + OsLabel(osType) + " Server is Ready! \U{1F680}"
  }

  /** The values the credentials template renders. */
  datatype Rendered = Rendered(osType: string, ipAddress: string, username: string, password: string, rdpPort: int)

  datatype Message = Message(subject: string, from: string, to: string, body: Rendered)

  /** What `send_rdp_credentials` did: nothing sent when no SMTP username is
      configured (the credentials are only logged), otherwise a message
      handed to SMTP, which either delivered it or raised (`delivered` is
      false) — an SMTP failure is logged and never reaches the caller. */
  datatype Effect = Mocked | Attempted(msg: Message, delivered: bool)

  /** `send_rdp_credentials`. `smtpRaises` is whether the SMTP exchange
      would raise. */
  function SendRdpCredentials(c: Config, toEmail: string, credentials: ServerDetails, osType: string,
                              smtpRaises: bool): (e: Effect)
    ensures e.Mocked? <==> !Truthy(c.smtpUsername)
    ensures e.Attempted? ==>
              e.msg.to == toEmail && e.msg.from == c.fromEmail && e.msg.subject == Subject(osType)
              && e.msg.body.osType == OsLabel(osType)
              && e.msg.body.ipAddress == credentials.ipAddress && e.msg.body.username == credentials.username
              && e.msg.body.password == credentials.password && e.msg.body.rdpPort == RdpPort
              && e.delivered == !smtpRaises
  {
    if !Truthy(c.smtpUsername) then Mocked
    else
      var body := Rendered(OsLabel(osType), credentials.ipAddress, credentials.username,
                           credentials.password, RdpPort);
      Attempted(Message(Subject(osType), c.fromEmail, toEmail, body), !smtpRaises)
  }

  /** After a letter, title-casing a run of letters lowers every one. */
  lemma {:induction false} TitleAfterLetterLowers(s: string)
    requires forall k :: 0 <= k < |s| ==> IsCased(s[k])
    ensures TitleFrom(s, true) == Lower(s)
  {
    if s != [] {
      TitleAfterLetterLowers(s[1..]);
    }
  }

  /** A word of letters title-cases to its first letter raised and the rest
      lowered. */
  lemma TitleOfWord(s: string)
    requires |s| > 0 && forall k :: 0 <= k < |s| ==> IsCased(s[k])
    ensures Title(s) == [ToUpperChar(s[0])] + Lower(s[1..])
  {
    TitleAfterLetterLowers(s[1..]);
  }

  /** The segment after a final separator is the text that follows it. */
  lemma {:induction false} LastSegmentAfterSep(p: string, w: string, sep: char)
    requires sep !in w
    ensures LastSegment(p + [sep] + w, sep) == w
  {
    var s := p + [sep] + w;
    if w != [] {
      var w' := w[..|w| - 1];
      assert s[..|s| - 1] == p + [sep] + w';
      LastSegmentAfterSep(p, w', sep);
      assert w' + [w[|w| - 1]] == w;
    }
  }

  /** The label of a dot-free word of letters. */
  lemma LabelOfWord(w: string)
    requires |w| > 0 && '.' !in w && forall k :: 0 <= k < |w| ==> IsCased(w[k])
    ensures OsLabel(w) == [ToUpperChar(w[0])] + Lower(w[1..])
  {
    LastSegmentNoSep(w, '.');
    TitleOfWord(w);
  }

  /** The label of a dotted name is that of its last part. */
  lemma LabelOfDotted(p: string, w: string)
    requires '.' !in w
    ensures OsLabel(p + ['.'] + w) == Title(w)
  {
    LastSegmentAfterSep(p, w, '.');
  }

  /** The task passes the plain value "windows"; an enum member's name
      "OSType.WINDOWS" would read the same. */
  lemma WindowsLabel()
    ensures OsLabel("windows") == "Windows" && OsLabel("OSType.WINDOWS") == "Windows"
  {
    LabelOfWord("windows");
    LowerOfNoUpper("indows");
    assert "OSType.WINDOWS" == "OSType" + ['.'] + "WINDOWS";
    LabelOfDotted("OSType", "WINDOWS");
    TitleOfWord("WINDOWS");
    assert Lower("INDOWS") == "indows";
  }

  /** The same for "linux" and "OSType.LINUX". */
  lemma LinuxLabel()
    ensures OsLabel("linux") == "Linux" && OsLabel("OSType.LINUX") == "Linux"
  {
    LabelOfWord("linux");
    LowerOfNoUpper("inux");
    assert "OSType.LINUX" == "OSType" + ['.'] + "LINUX";
    LabelOfDotted("OSType", "LINUX");
    TitleOfWord("LINUX");
    assert Lower("INUX") == "inux";
  }
}
