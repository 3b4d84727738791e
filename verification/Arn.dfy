/** Building and parsing Amazon resource names. */
module Arn {
  import opened Options
  import opened Sequences

  datatype ARN = ARN(partition: string, service: string, region: string, account: string, kind: string, id: string)

  /** strings.SplitN on a one-character separator. */
  function SplitN(s: string, c: char, n: nat): seq<string>
    decreases n
  {
    if n == 0 then []
    else if n == 1 || Find(s, c) == |s| then [s]
    else [s[..Find(s, c)]] + SplitN(s[Find(s, c) + 1..], c, n - 1)
  }

  /** The text of an ARN in the aws partition. */
  function Format(service: string, region: string, account: string, resource: string): string {
    "arn:aws:" + (service + [':'] + (region + [':'] + (account + [':'] + resource)))
  }

  function EC2ARN(region: string, account: string, resourceType: string, id: string): string {
    if account == "" || id == "" then ""
    else Format("ec2", region, account, resourceType + "/" + id)
  }

  function TrimSlash(s: string): string {
    if s != [] && s[0] == '/' then s[1..] else s
  }

  /** The trailing resource segment: "type/id", "type:id" or just "id". */
  function Resource(s: string): (string, string) {
    var r := TrimSlash(s);
    if '/' in r then (r[..Find(r, '/')], Rest(r, '/'))
    else if ':' in r then (r[..Find(r, ':')], Rest(r, ':'))
    else ("", r)
  }

  function Rest(s: string, c: char): string {
    if Find(s, c) < |s| then s[Find(s, c) + 1..] else []
  }

  function ParseARN(arn: string): Option<ARN> {
    var parts := SplitN(arn, ':', 6);
    if |parts| < 6 || parts[0] != "arn" then None
    else
      var (kind, id) := Resource(parts[5]);
      Some(ARN(parts[1], parts[2], parts[3], parts[4], kind, id))
  }

  // ---- splitting what was joined -------------------------------------------------------

  lemma {:induction false} FindAt(a: string, c: char, b: string)
    requires c !in a
    ensures Find(a + [c] + b, c) == |a|
  {
    var s := a + [c] + b;
    assert s[|a|] == c;
    assert forall i :: 0 <= i < |a| ==> s[i] == a[i] && a[i] in a;
  }

  lemma {:induction false} SplitHead(a: string, c: char, b: string, n: nat)
    requires c !in a && n > 1
    ensures SplitN(a + [c] + b, c, n) == [a] + SplitN(b, c, n - 1)
  {
    FindAt(a, c, b);
    assert (a + [c] + b)[..|a|] == a && (a + [c] + b)[|a| + 1..] == b;
  }

  function Joined(parts: seq<string>, c: char): string
    requires parts != []
  {
    if |parts| == 1 then parts[0] else parts[0] + [c] + Joined(parts[1..], c)
  }

  /** Splitting what was joined, when only the last part may hold the separator. */
  lemma {:induction false} SplitJoined(parts: seq<string>, c: char)
    requires parts != [] && forall i :: 0 <= i < |parts| - 1 ==> c !in parts[i]
    ensures SplitN(Joined(parts, c), c, |parts|) == parts
  {
    if |parts| > 1 {
      SplitJoined(parts[1..], c);
      SplitHead(parts[0], c, Joined(parts[1..], c), |parts|);
      assert parts == [parts[0]] + parts[1..];
    }
  }

  /** The six-part shape of an ARN. */
  function SixParts(service: string, region: string, account: string, resource: string): seq<string> {
    ["arn", "aws", service, region, account, resource]
  }

  lemma {:induction false} FormatIsSixParts(service: string, region: string, account: string, resource: string)
    ensures Format(service, region, account, resource) == Joined(SixParts(service, region, account, resource), ':')
  {
    var s1 := account + [':'] + resource;
    var s2 := region + [':'] + s1;
    var s3 := service + [':'] + s2;
    assert [account, resource][1..] == [resource];
    assert Joined([account, resource], ':') == s1;
    assert [region, account, resource][1..] == [account, resource];
    assert Joined([region, account, resource], ':') == s2;
    assert [service, region, account, resource][1..] == [region, account, resource];
    assert Joined([service, region, account, resource], ':') == s3;
    assert ["aws", service, region, account, resource][1..] == [service, region, account, resource];
    assert Joined(["aws", service, region, account, resource], ':') == "aws" + [':'] + s3;
    var p := SixParts(service, region, account, resource);
    assert p[1..] == ["aws", service, region, account, resource];
    assert "arn" + [':'] + ("aws" + [':'] + s3) == "arn:aws:" + s3;
  }

  /** Only the last piece may still hold the separator. */
  lemma {:induction false} PiecesAreClean(s: string, c: char, n: nat)
    ensures var parts := SplitN(s, c, n);
            |parts| <= n && forall i :: 0 <= i < n - 1 && i < |parts| ==> c !in parts[i]
    decreases n
  {
    if n > 1 && Find(s, c) < |s| {
      PiecesAreClean(s[Find(s, c) + 1..], c, n - 1);
    }
  }

  // ---- when building and parsing invert each other -----------------------------------------

  /** A resource type and id that come back from "type/id". */
  predicate Separable(resourceType: string, id: string) {
    if resourceType == "" then '/' !in id && ':' !in id else '/' !in resourceType
  }

  lemma {:induction false} ResourceIff(resourceType: string, id: string)
    requires id != ""
    ensures Resource(resourceType + "/" + id) == (resourceType, id) <==> Separable(resourceType, id)
  {
    var s := resourceType + "/" + id;
    if resourceType == "" {
      assert s == ['/'] + id && TrimSlash(s) == id;
    } else {
      assert s[0] == resourceType[0];
      var r := TrimSlash(s);
      assert r[|r| - |id| - 1] == '/';
      assert '/' in r;
      if '/' !in resourceType {
        assert resourceType[0] in resourceType;
        FindAt(resourceType, '/', id);
        assert s == resourceType + ['/'] + id;
        assert s[..|resourceType|] == resourceType && s[|resourceType| + 1..] == id;
        assert r == s;
      } else {
        assert '/' !in r[..Find(r, '/')];
      }
    }
  }

  /** The text of an EC2 ARN. */
  lemma {:induction false} EC2Text(region: string, account: string, resourceType: string, id: string)
    ensures EC2ARN(region, account, resourceType, id) ==
            if account == "" || id == "" then ""
            else "arn:aws:ec2:" + region + ":" + account + ":" + resourceType + "/" + id
  {
    if account != "" && id != "" {
      var resource := resourceType + "/" + id;
      Assoc(account, ":", resource);
      Assoc(region, ":", account + ":" + resource);
      assert "arn:aws:" + ("ec2" + ":" + (region + ":" + (account + ":" + resource)))
          == "arn:aws:ec2:" + region + ":" + account + ":" + resourceType + "/" + id;
    }
  }

  /** Six parts joined by colons, only the last of which may hold one, parse into those parts; the last is the resource. */
  lemma {:induction false} AnyARNParses(partition: string, service: string, region: string, account: string, resource: string)
    requires ':' !in partition && ':' !in service && ':' !in region && ':' !in account
    ensures ParseARN(Joined(["arn", partition, service, region, account, resource], ':')) ==
            Some(ARN(partition, service, region, account, Resource(resource).0, Resource(resource).1))
  {
    SplitJoined(["arn", partition, service, region, account, resource], ':');
  }

  lemma {:induction false} SlashSplits(resourceType: string, id: string)
    requires resourceType != "" && '/' !in resourceType
    ensures Resource(resourceType + "/" + id) == (resourceType, id)
  {
    var s := resourceType + ['/'] + id;
    assert resourceType[0] in resourceType && s[0] == resourceType[0];
    assert s[|resourceType|] == '/';
    FindAt(resourceType, '/', id);
    assert s[..|resourceType|] == resourceType && s[|resourceType| + 1..] == id;
  }

  lemma {:induction false} LeadingSlashIsTrimmed(resourceType: string, id: string)
    requires resourceType != "" && '/' !in resourceType
    ensures Resource("/" + (resourceType + "/" + id)) == (resourceType, id)
  {
    var s := resourceType + "/" + id;
    SlashSplits(resourceType, id);
    assert ("/" + s)[1..] == s && TrimSlash("/" + s) == s;
    assert resourceType[0] in resourceType && s[0] == resourceType[0];
    assert TrimSlash(s) == s;
  }

  /** The forms of a resource: "id", "type/id", "type:id", and with a leading slash "/type/id". */
  lemma {:induction false} ResourceForms(resourceType: string, id: string)
    ensures Resource(id) == ("", id) <==> '/' !in id && ':' !in id
    ensures resourceType != "" && '/' !in resourceType ==>
              Resource(resourceType + "/" + id) == Resource("/" + (resourceType + "/" + id)) == (resourceType, id)
    ensures Resource(resourceType + ":" + id) == (resourceType, id)
            <==> ':' !in resourceType && '/' !in resourceType && '/' !in id
  {
    BareResourceIff(id);
    ColonSplits(resourceType, id);
    if resourceType != "" && '/' !in resourceType {
      SlashSplits(resourceType, id);
      LeadingSlashIsTrimmed(resourceType, id);
    }
  }

  lemma {:induction false} FormatText(service: string, region: string, account: string, resource: string)
    ensures Format(service, region, account, resource) ==
            "arn:aws:" + service + ":" + region + ":" + account + ":" + resource
  {
  }

  lemma {:induction false} ColonSplits(resourceType: string, id: string)
    ensures Resource(resourceType + ":" + id) == (resourceType, id)
            <==> ':' !in resourceType && '/' !in resourceType && '/' !in id
  {
    var s := resourceType + [':'] + id;
    var r := TrimSlash(s);
    assert s[|resourceType|] == ':' && s[|resourceType| + 1..] == id && s[..|resourceType|] == resourceType;
    if '/' in id {
      assert r[|r| - |id|..] == id;
      assert '/' in r;
      assert Find(r, '/') == |resourceType| ==> r[Find(r, '/')] == '/';
    } else if '/' in resourceType {
      assert '/' !in Resource(s).0;
    } else {
      assert '/' !in s;
      if ':' in resourceType {
        assert ':' !in Resource(s).0;
      } else {
        FindAt(resourceType, ':', id);
      }
    }
  }

  /**
    Parsing an EC2 ARN gives back what it was built from exactly when there are
    an account and an id, the region and account hold no colon, and the resource
    type and id can be told apart.
  */
  lemma {:induction false} EC2RoundTripIff(region: string, account: string, resourceType: string, id: string)
    ensures ParseARN(EC2ARN(region, account, resourceType, id)) == Some(ARN("aws", "ec2", region, account, resourceType, id))
            <==> && account != "" && id != "" && ':' !in region && ':' !in account
                 && Separable(resourceType, id)
  {
    if account == "" || id == "" {
      EmptyIsNoARN();
    } else if ':' !in region && ':' !in account {
      EC2Parses(region, account, resourceType, id);
      ResourceIff(resourceType, id);
    } else {
      ParsedPartsAreClean(EC2ARN(region, account, resourceType, id));
    }
  }

  /** The empty string, given for what has no ARN, is not one. */
  lemma {:induction false} EmptyIsNoARN()
    ensures ParseARN("") == None
  {
    assert Find("", ':') == 0;
  }

  /** Whatever is parsed, region and account come out without a colon. */
  lemma {:induction false} ParsedPartsAreClean(arn: string)
    ensures ParseARN(arn).Some? ==> ':' !in ParseARN(arn).value.region && ':' !in ParseARN(arn).value.account
  {
    PiecesAreClean(arn, ':', 6);
  }

  lemma {:induction false} EC2Parses(region: string, account: string, resourceType: string, id: string)
    requires account != "" && id != "" && ':' !in region && ':' !in account
    ensures var (kind, rest) := Resource(resourceType + "/" + id);
            ParseARN(EC2ARN(region, account, resourceType, id)) == Some(ARN("aws", "ec2", region, account, kind, rest))
  {
    FormatIsSixParts("ec2", region, account, resourceType + "/" + id);
    SplitJoined(SixParts("ec2", region, account, resourceType + "/" + id), ':');
  }

  // ---- queue URLs ----------------------------------------------------------------------------

  predicate At(s: string, sub: string, i: nat) {
    i + |sub| <= |s| && s[i..i + |sub|] == sub
  }

  /** strings.Index: the first occurrence, or None. */
  function Index(s: string, sub: string, from: nat): Option<nat>
    requires from <= |s|
    decreases |s| - from
  {
    if At(s, sub, from) then Some(from)
    else if from == |s| then None
    else Index(s, sub, from + 1)
  }

  lemma {:induction false} IndexIs(s: string, sub: string, from: nat, i: nat)
    requires from <= i <= |s| && At(s, sub, i) && forall j :: from <= j < i ==> !At(s, sub, j)
    ensures Index(s, sub, from) == Some(i)
    decreases i - from
  {
    if from < i {
      IndexIs(s, sub, from + 1, i);
    }
  }

  const MARKER := ".amazonaws.com/"
  const HEAD := "https://sqs."
  const QUEUE_PREFIX := "sqs."

  function QueueRegion(url: string): string {
    match Index(url, QUEUE_PREFIX, 0)
    case None => ""
    case Some(i) =>
      if i + |QUEUE_PREFIX| > |url| then ""
      else
        var rest := url[i + |QUEUE_PREFIX|..];
        if Find(rest, '.') == |rest| then "" else rest[..Find(rest, '.')]
  }

  /** What follows the marker, split at its first slash; nothing when either is missing. */
  function QueueTail(url: string): (string, string) {
    match Index(url, MARKER, 0)
    case None => ("", "")
    case Some(i) =>
      if i + |MARKER| > |url| then ("", "")
      else
        var rest := url[i + |MARKER|..];
        if Find(rest, '/') == |rest| then ("", "") else (rest[..Find(rest, '/')], rest[Find(rest, '/') + 1..])
  }

  function QueueARN(url: string): string {
    var tail := QueueTail(url);
    if tail.0 == "" || tail.1 == "" || QueueRegion(url) == "" then ""
    else Format("sqs", QueueRegion(url), tail.0, tail.1)
  }

  function QueueURL(region: string, account: string, name: string): string {
    HEAD + region + MARKER + account + "/" + name
  }

  /** The text of a queue URL, and of the ARN of a queue. */
  lemma {:induction false} QueueTexts(region: string, account: string, name: string)
    ensures QueueURL(region, account, name) == "https://sqs." + region + ".amazonaws.com/" + account + "/" + name
    ensures region != "" && '.' !in region && account != "" && '/' !in account && name != "" ==>
              QueueARN(QueueURL(region, account, name)) == "arn:aws:sqs:" + region + ":" + account + ":" + name
  {
    if region != "" && '.' !in region && account != "" && '/' !in account && name != "" {
      QueueARNOfURL(region, account, name);
      FormatText("sqs", region, account, name);
      assert "arn:aws:" + "sqs" + ":" == "arn:aws:sqs:";
    }
  }

  lemma {:induction false} SliceMiddle(a: string, b: string, c: string)
    ensures (a + b + c)[|a|..|a| + |b|] == b && (a + b + c)[|a| + |b|..] == c
  {
  }

  lemma {:induction false} NotAt(s: string, sub: string, i: nat, k: nat)
    requires k < |sub| && i + k < |s| && s[i + k] != sub[k]
    ensures !At(s, sub, i)
  {
    if i + |sub| <= |s| {
      assert s[i..i + |sub|][k] == s[i + k];
    }
  }

  /** The characters of a queue URL, part by part. */
  lemma {:induction false} URLParts(region: string, account: string, name: string)
    ensures var url, n := QueueURL(region, account, name), 12 + |region|;
            && n + |MARKER| <= |url|
            && (forall j :: 0 <= j < 12 ==> url[j] == HEAD[j])
            && (forall j :: 0 <= j < |region| ==> url[12 + j] == region[j])
            && (forall j :: 0 <= j < |MARKER| ==> url[n + j] == MARKER[j])
            && url[12..] == region + ['.'] + (MARKER[1..] + (account + "/" + name))
  {
    var url := QueueURL(region, account, name);
    SliceMiddle(HEAD, region, MARKER + account + "/" + name);
    assert url == HEAD + region + (MARKER + account + "/" + name);
  }

  lemma {:induction false} QueueRegionOfURL(region: string, account: string, name: string)
    requires '.' !in region
    ensures QueueRegion(QueueURL(region, account, name)) == region
  {
    var url := QueueURL(region, account, name);
    URLParts(region, account, name);
    assert At(url, QUEUE_PREFIX, 8);
    forall j | 0 <= j < 8
      ensures !At(url, QUEUE_PREFIX, j)
    {
      NotAt(url, QUEUE_PREFIX, j, 3);
    }
    IndexIs(url, QUEUE_PREFIX, 0, 8);
    FindAt(region, '.', MARKER[1..] + (account + "/" + name));
  }

  lemma {:induction false} MarkerOfURL(region: string, account: string, name: string)
    requires '.' !in region
    ensures Index(QueueURL(region, account, name), MARKER, 0) == Some(12 + |region|)
  {
    var url, n := QueueURL(region, account, name), 12 + |region|;
    URLParts(region, account, name);
    assert At(url, MARKER, n);
    forall j | 0 <= j < n
      ensures !At(url, MARKER, j)
    {
      if j < 11 {
        NotAt(url, MARKER, j, 0);
      } else if j == 11 {
        NoMarkerAtRegion(region, account, name);
      } else {
        assert url[j] == region[j - 12] && region[j - 12] in region;
        NotAt(url, MARKER, j, 0);
      }
    }
    IndexIs(url, MARKER, 0, n);
  }

  /** A region is not followed by what the marker would need after its dot. */
  lemma {:induction false} NoMarkerAtRegion(region: string, account: string, name: string)
    requires '.' !in region
    ensures !At(QueueURL(region, account, name), MARKER, 11)
  {
    var url, n := QueueURL(region, account, name), 12 + |region|;
    URLParts(region, account, name);
    if |region| == 9 {
      assert url[n + 1] == MARKER[1];
      NotAt(url, MARKER, 11, 11);
    } else if |region| < 9 {
      assert url[n] == MARKER[0];
      NotAt(url, MARKER, 11, 1 + |region|);
    } else {
      assert url[21] == region[9] && region[9] in region;
      NotAt(url, MARKER, 11, 10);
    }
  }

  lemma {:induction false} AfterMarker(region: string, account: string, name: string)
    requires '/' !in account
    ensures var url, i := QueueURL(region, account, name), 12 + |region| + |MARKER|;
            && i <= |url| && url[i..] == account + ['/'] + name
            && Find(url[i..], '/') == |account|
            && url[i..][..|account|] == account && url[i..][|account| + 1..] == name
  {
    var url, head := QueueURL(region, account, name), HEAD + region + MARKER;
    var rest := account + ['/'] + name;
    assert url == head + rest;
    FindAt(account, '/', name);
    assert rest[..|account|] == account && rest[|account| + 1..] == name;
  }

  lemma {:induction false} QueueTailOfURL(region: string, account: string, name: string)
    requires '.' !in region && '/' !in account
    ensures QueueTail(QueueURL(region, account, name)) == (account, name)
  {
    MarkerOfURL(region, account, name);
    AfterMarker(region, account, name);
  }

  lemma {:induction false} QueueARNOfURL(region: string, account: string, name: string)
    requires '.' !in region && '/' !in account
    ensures QueueARN(QueueURL(region, account, name)) ==
            if region == "" || account == "" || name == "" then "" else Format("sqs", region, account, name)
  {
    QueueRegionOfURL(region, account, name);
    QueueTailOfURL(region, account, name);
  }

  lemma {:induction false} SplitThree(a: string, b: string, d: string, tail: string)
    requires ':' !in a && ':' !in b && ':' !in d
    ensures SplitN(a + [':'] + (b + [':'] + (d + [':'] + tail)), ':', 6) == [a] + ([b] + ([d] + SplitN(tail, ':', 3)))
  {
    SplitHead(d, ':', tail, 4);
    SplitHead(b, ':', d + [':'] + tail, 5);
    SplitHead(a, ':', b + [':'] + (d + [':'] + tail), 6);
  }

  lemma {:induction false} FirstPiece(a: string, c: char, b: string, n: nat)
    requires n > 1
    ensures SplitN(a + [c] + b, c, n) != [] && SplitN(a + [c] + b, c, n)[0] <= a
  {
    var s := a + [c] + b;
    assert s[|a|] == c;
    assert Find(s, c) <= |a|;
    assert s[..Find(s, c)] == a[..Find(s, c)];
  }

  /** What stands before the region's first colon comes out as the region. */
  lemma {:induction false} ParsedRegion(region: string, account: string, name: string)
    ensures var parsed := ParseARN(Format("sqs", region, account, name)); parsed.Some? ==> parsed.value.region <= region
  {
    var rest := account + [':'] + name;
    var tail := region + [':'] + rest;
    SplitThree("arn", "aws", "sqs", tail);
    FirstPiece(region, ':', rest, 3);
    FormatAsThree(tail, region, rest, account, name);
  }

  lemma {:induction false} FormatAsThree(tail: string, region: string, rest: string, account: string, name: string)
    requires rest == account + [':'] + name && tail == region + [':'] + rest
    ensures Format("sqs", region, account, name) == "arn" + [':'] + ("aws" + [':'] + ("sqs" + [':'] + tail))
  {
  }

  lemma {:induction false} QueueRegionIsUndotted(url: string)
    ensures '.' !in QueueRegion(url)
  {
  }

  /** A dotted region is cut at its first dot. */
  lemma {:induction false} DottedRegionIsCut(region: string, url: string)
    requires '.' in region
    ensures ParseARN(QueueARN(url)).Some? ==> ParseARN(QueueARN(url)).value.region != region
  {
    QueueRegionIsUndotted(url);
    if QueueARN(url) == "" {
      EmptyIsNoARN();
    } else {
      ParsedRegion(QueueRegion(url), QueueTail(url).0, QueueTail(url).1);
    }
  }

  /** An account is cut at its first slash. */
  lemma {:induction false} SlashedAccountIsCut(region: string, account: string, name: string)
    requires '.' !in region && ':' !in region && ':' !in account && '/' in account
    ensures var parsed := ParseARN(QueueARN(QueueURL(region, account, name)));
            parsed.Some? ==> parsed.value.account != account
  {
    var cut := Find(account, '/');
    var account', name' := account[..cut], account[cut + 1..] + "/" + name;
    assert account == account' + ['/'] + account[cut + 1..];
    assert QueueURL(region, account, name) == QueueURL(region, account', name');
    EmptyIsNoARN();
    QueueARNOfURL(region, account', name');
    ParsedPlain("sqs", region, account', name');
  }

  lemma {:induction false} ParsedPlain(service: string, region: string, account: string, name: string)
    requires ':' !in service && ':' !in region && ':' !in account
    ensures var (kind, id) := Resource(name);
            ParseARN(Format(service, region, account, name)) == Some(ARN("aws", service, region, account, kind, id))
  {
    FormatIsSixParts(service, region, account, name);
    SplitJoined(SixParts(service, region, account, name), ':');
  }

  lemma {:induction false} BareResourceIff(name: string)
    ensures Resource(name) == ("", name) <==> '/' !in name && ':' !in name
  {
    if '/' in name {
      assert |TrimSlash(name)| <= |name|;
      assert name[0] == '/' || '/' in TrimSlash(name);
    }
  }

  /**
    A queue's URL names its region, account and queue, and the ARN made from it
    gives them back exactly when all are there and none holds a delimiter.
  */
  lemma {:induction false} QueueRoundTripIff(region: string, account: string, name: string)
    ensures ParseARN(QueueARN(QueueURL(region, account, name))) == Some(ARN("aws", "sqs", region, account, "", name))
            <==> && region != "" && '.' !in region && ':' !in region
                 && account != "" && '/' !in account && ':' !in account
                 && name != "" && '/' !in name && ':' !in name
  {
    ParsedPartsAreClean(QueueARN(QueueURL(region, account, name)));
    if '.' in region {
      DottedRegionIsCut(region, QueueURL(region, account, name));
    } else if ':' !in region && ':' !in account {
      if '/' in account {
        SlashedAccountIsCut(region, account, name);
      } else {
        EmptyIsNoARN();
        QueueARNOfURL(region, account, name);
        ParsedPlain("sqs", region, account, name);
        BareResourceIff(name);
      }
    }
  }
}
