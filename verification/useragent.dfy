/**
  Synthetic Chrome user-agent strings for the HTTP camouflage header.
  The random source is a parameter: `rand(i)` is the value the i-th call of
  std::rand() returns while the agents are generated.
  */
module UserAgent {
  import opened JsonDoc
  import opened Decimal

  /** The three operating-system strings, in the source's order. */
  const Platforms: seq<string> :=
    [ "Macintosh; Intel Mac OS X 10_15",
      "X11; Linux x86_64",
      "Windows NT 10.0; Win64; x64" ]

  const Prefix := "Mozilla/5.0 ("
  const Engine := ") AppleWebKit/537.36 (KHTML, like Gecko) Chrome/"
  const Trailer := " Safari/537.36"

  /** The four drawn components of one agent: an index into Platforms and the
      Chrome major, build and patch numbers. */
  datatype Agent = Agent(platform: nat, major: nat, build: nat, patch: nat)

  predicate InRange(a: Agent)
  {
    && a.platform < |Platforms|
    && 50 <= a.major <= 79
    && 1000 <= a.build <= 4999
    && a.patch <= 99
  }

  /** The k-th agent uses draws 4k, 4k+1, 4k+2 and 4k+3, for the platform, major,
      build and patch in that order. */
  function Draw(rand: nat -> nat, k: nat): (a: Agent)
    ensures InRange(a)
  {
    Agent(rand(4 * k) % 3,
          rand(4 * k + 1) % 30 + 50,
          rand(4 * k + 2) % 4000 + 1000,
          rand(4 * k + 3) % 100)
  }

  /** `Mozilla/5.0 (<os>) AppleWebKit/537.36 (KHTML, like Gecko)
      Chrome/<major>.0.<build>.<patch> Safari/537.36` */
  function Render(a: Agent): (s: string)
    requires a.platform < |Platforms|
    ensures Prefix + Platforms[a.platform] + Engine <= s
    ensures EndsWith(s, Trailer)
  {
    var os := Platforms[a.platform];
    var t1 := Show(a.patch) + Trailer;
    var t2 := "." + t1;
    var t3 := Show(a.build) + t2;
    var t4 := ".0." + t3;
    var t5 := Show(a.major) + t4;
    EndsWithConcat(Show(a.patch), Trailer, Trailer);
    EndsWithConcat(".", t1, Trailer);
    EndsWithConcat(Show(a.build), t2, Trailer);
    EndsWithConcat(".0.", t3, Trailer);
    EndsWithConcat(Show(a.major), t4, Trailer);
    EndsWithConcat(Engine, t5, Trailer);
    EndsWithConcat(os, Engine + t5, Trailer);
    EndsWithConcat(Prefix, os + (Engine + t5), Trailer);
    HeadOfConcat(Prefix, os, Engine, t5);
    Prefix + (os + (Engine + t5))
  }

  predicate EndsWith(s: string, t: string)
  {
    |t| <= |s| && s[|s| - |t|..] == t
  }

  lemma EndsWithConcat(x: string, y: string, t: string)
    requires EndsWith(y, t)
    ensures EndsWith(x + y, t)
  {
    assert (x + y)[|x + y| - |t|..] == y[|y| - |t|..];
  }

  lemma HeadOfConcat(a: string, b: string, c: string, d: string)
    ensures a + b + c <= a + (b + (c + d))
  {
    assert a + (b + (c + d)) == (a + b + c) + d;
  }

  /** getRandomUserAgents(n): n agents (none when n is not positive), the k-th
      one formatted from the k-th group of four draws. */
  function UserAgents(n: int, rand: nat -> nat): (r: seq<string>)
    ensures |r| == if n < 0 then 0 else n
  {
    seq(if n < 0 then 0 else n, k requires 0 <= k => Render(Draw(rand, k)))
  }

  /** Every generated agent has the fixed format, one of the three platforms and
      version numbers in the drawn ranges: it reads back as in-range components,
      the k-th one as the k-th group of draws. */
  lemma UserAgentsWellFormed(n: int, rand: nat -> nat)
    ensures forall k :: 0 <= k < |UserAgents(n, rand)| ==>
      Parse(UserAgents(n, rand)[k]) == Some(Draw(rand, k)) && InRange(Draw(rand, k))
  {
    var r := UserAgents(n, rand);
    forall k | 0 <= k < |r|
      ensures Parse(r[k]) == Some(Draw(rand, k))
    {
      ParseRender(Draw(rand, k));
    }
  }

  // ------------------------------------------------------------ reading back

  /** `s` without the literal `lit` at its front, if it starts with it. */
  function Skip(lit: string, s: string): Option<string>
  {
    if lit <= s then Some(s[|lit|..]) else None
  }

  /** The leading run of digits of `s` as a number, and what follows it. */
  function ReadNumber(s: string): Option<(nat, string)>
  {
    var k := Span(s);
    if k == 0 then None else Some((Value(s[..k]), s[k..]))
  }

  /** The first platform string `s` starts with. */
  function PlatformOf(s: string): (r: Option<nat>)
    ensures r.Some? ==> r.value < |Platforms| && Platforms[r.value] <= s
  {
    if Platforms[0] <= s then Some(0)
    else if Platforms[1] <= s then Some(1)
    else if Platforms[2] <= s then Some(2)
    else None
  }

  /** Recognises a rendered agent and recovers its components. */
  function Parse(s: string): Option<Agent>
  {
    match Skip(Prefix, s)
    case None => None
    case Some(s1) =>
      match PlatformOf(s1)
      case None => None
      case Some(os) =>
        match Skip(Platforms[os] + Engine, s1)
        case None => None
        case Some(s2) =>
          match ReadNumber(s2)
          case None => None
          case Some((major, s3)) =>
            match Skip(".0.", s3)
            case None => None
            case Some(s4) =>
              match ReadNumber(s4)
              case None => None
              case Some((build, s5)) =>
                match Skip(".", s5)
                case None => None
                case Some(s6) =>
                  match ReadNumber(s6)
                  case None => None
                  case Some((patch, s7)) =>
                    if s7 == Trailer then Some(Agent(os, major, build, patch)) else None
  }

  lemma SkipLiteral(lit: string, rest: string)
    ensures Skip(lit, lit + rest) == Some(rest)
  {
    assert (lit + rest)[..|lit|] == lit;
    assert (lit + rest)[|lit|..] == rest;
  }

  lemma ReadShow(n: nat, rest: string)
    requires rest == [] || !IsDigit(rest[0])
    ensures ReadNumber(Show(n) + rest) == Some((n, rest))
  {
    var s := Show(n) + rest;
    SpanOfNumeral(Show(n), rest);
    assert s[..|Show(n)|] == Show(n);
    assert s[|Show(n)|..] == rest;
    ValueOfShow(n);
  }

  lemma PlatformOfRendered(os: nat, rest: string)
    requires os < |Platforms|
    ensures PlatformOf(Platforms[os] + rest) == Some(os)
  {
    var s := Platforms[os] + rest;
    assert s[..|Platforms[os]|] == Platforms[os];
    assert s[0] == Platforms[os][0];
  }

  /** Every rendered agent reads back as the components it was rendered from. */
  lemma ParseRender(a: Agent)
    requires a.platform < |Platforms|
    ensures Parse(Render(a)) == Some(a)
  {
    var os := Platforms[a.platform];
    var s7 := Trailer;
    var s6 := Show(a.patch) + s7;
    var s5 := "." + s6;
    var s4 := Show(a.build) + s5;
    var s3 := ".0." + s4;
    var s2 := Show(a.major) + s3;
    var s1 := os + (Engine + s2);
    assert Render(a) == Prefix + s1;
    SkipLiteral(Prefix, s1);
    PlatformOfRendered(a.platform, Engine + s2);
    assert s1 == (os + Engine) + s2;
    SkipLiteral(os + Engine, s2);
    ReadShow(a.major, s3);
    SkipLiteral(".0.", s4);
    ReadShow(a.build, s5);
    SkipLiteral(".", s6);
    ReadShow(a.patch, s7);
  }
}
