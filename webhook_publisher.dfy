/** The notification decision and composition of WebhookPublisher.java.

    On completion of a build the publisher decides whether to notify, switches
    URL linking off for good when the instance URL is missing, classifies the
    result into a status colour, chooses a title, lays out the description
    prefix and hands the prefix to the bounded description builder; the filled
    webhook is then sent. The send itself is not modelled: a returned
    Some(webhook) stands for "send requested with these fields".

    The Jenkins collaborators are plain values: the build (Build), the global
    location configuration (Option<LocationConfiguration>, None for null) and
    the environment's variable expansion (a function `expand`). */
module WebhookPublisher {
  import opened Wrappers
  import opened Strings
  import EmbedDescription

  const Name: string := "Discord Notifier"
  const Version: string := "1.4.4"
  const InvalidWebhookMessage: string := "Please enter a valid Discord webhook URL."

  // ---------------------------------------------------------------------------
  // Build results and colours

  /** A build result as Jenkins represents it: a name, a position in the order
      of severity (a larger ordinal is worse) and whether it is a complete build. */
  datatype Result = Result(name: string, ordinal: nat, completeBuild: bool)
  {
    predicate IsWorseThan(that: Result)
    {
      ordinal > that.ordinal
    }

    predicate IsBetterOrEqualTo(that: Result)
    {
      ordinal <= that.ordinal
    }
  }

  /** The five results Jenkins defines, in order; NOT_BUILT and ABORTED are
      not complete builds. */
  const Success: Result := Result("SUCCESS", 0, true)
  const Unstable: Result := Result("UNSTABLE", 1, true)
  const Failure: Result := Result("FAILURE", 2, true)
  const NotBuilt: Result := Result("NOT_BUILT", 3, false)
  const Aborted: Result := Result("ABORTED", 4, false)

  datatype StatusColor = Green | Yellow | Red

  function Severity(c: StatusColor): nat
  {
    match c
    case Green => 0
    case Yellow => 1
    case Red => 2
  }

  /** The colour a complete result is shown in. */
  function ColorFor(r: Result): (c: StatusColor)
    ensures c == Green <==> r.IsBetterOrEqualTo(Success)
    ensures c == Yellow <==> r.IsWorseThan(Success) && !r.IsWorseThan(Unstable)
    ensures c == Red <==> r.IsWorseThan(Unstable)
  {
    if r.IsWorseThan(Unstable) then Red
    else if r.IsWorseThan(Success) then Yellow
    else Green
  }

  /** A worse result is never shown in a milder colour. */
  lemma ColorMonotone(r1: Result, r2: Result)
    requires r1.ordinal <= r2.ordinal
    ensures Severity(ColorFor(r1)) <= Severity(ColorFor(r2))
  {
  }

  lemma StandardColors()
    ensures ColorFor(Success) == Green
    ensures ColorFor(Unstable) == Yellow
    ensures ColorFor(Failure) == Red && ColorFor(NotBuilt) == Red && ColorFor(Aborted) == Red
  {
  }

  // ---------------------------------------------------------------------------
  // Markdown links

  /** The URL with every ')' replaced by "\)". */
  function EscapeParens(url: string): (r: string)
    ensures |r| >= |url|
    ensures NoBareParen(r)
  {
    if url == [] then []
    else (if url[0] == ')' then "\\)" else [url[0]]) + EscapeParens(url[1..])
  }

  /** Every ')' is preceded by a backslash. For a reader that takes "\)" as
      the only escape, as `Unescape` does, no ')' closes the link; backslashes
      themselves are not escaped. */
  predicate NoBareParen(s: string)
  {
    forall i :: 0 <= i < |s| && s[i] == ')' ==> i > 0 && s[i - 1] == '\\'
  }

  /** A reading of a link target in which "\)" stands for ')' and every other
      character stands for itself (a CommonMark reader also reads "\\" as one
      backslash, which this reading does not). */
  function Unescape(s: string): string
  {
    if |s| >= 2 && s[0] == '\\' && s[1] == ')' then ")" + Unescape(s[2..])
    else if s == [] then []
    else [s[0]] + Unescape(s[1..])
  }

  lemma {:induction false} UnescapeEscape(url: string)
    ensures Unescape(EscapeParens(url)) == url
  {
    if url != [] {
      var rest := EscapeParens(url[1..]);
      UnescapeEscape(url[1..]);
      if url[0] == ')' {
        assert EscapeParens(url) == "\\)" + rest;
        assert ("\\)" + rest)[2..] == rest;
      } else {
        assert EscapeParens(url) == [url[0]] + rest;
        assert ([url[0]] + rest)[1..] == rest;
        assert url == [url[0]] + url[1..];
      }
    }
  }

  /** A markdown link: the content is shown unchanged, and the target has a
      backslash before every ')' and reads back, through `Unescape`, as the URL. */
  function MarkdownHyperlink(content: string, url: string): (r: string)
    ensures |r| == |content| + |EscapeParens(url)| + 4
    ensures var target := r[|content| + 3 .. |r| - 1];
            && r == "[" + content + "](" + target + ")"
            && NoBareParen(target)
            && Unescape(target) == url
  {
    UnescapeEscape(url);
    "[" + content + "](" + EscapeParens(url) + ")"
  }

  // ---------------------------------------------------------------------------
  // Webhook URL validation

  predicate IsDigit(c: char)
  {
    '0' <= c <= '9'
  }

  /** A character of `\w`, `-` or `_` in a Java regular expression. */
  predicate IsTokenChar(c: char)
  {
    ('a' <= c <= 'z') || ('A' <= c <= 'Z') || IsDigit(c) || c == '_' || c == '-'
  }

  predicate AllTokenChars(s: string)
  {
    forall i :: 0 <= i < |s| ==> IsTokenChar(s[i])
  }

  const Scheme: string := "https://"
  const WebhooksPath: string := "discordapp.com/api/webhooks/"

  /** The whole-string match of
      https://(canary\.|ptb\.|)discordapp\.com/api/webhooks/\d{18}/(\w|-|_)*(/?) */
  predicate IsWebhookUrl(s: string)
  {
    Scheme <= s && MatchesHost(s[|Scheme|..])
  }

  predicate MatchesHost(s: string)
  {
    || ("canary." <= s && MatchesPath(s[7..]))
    || ("ptb." <= s && MatchesPath(s[4..]))
    || MatchesPath(s)
  }

  predicate MatchesPath(s: string)
  {
    WebhooksPath <= s && MatchesIdAndToken(s[|WebhooksPath|..])
  }

  predicate MatchesIdAndToken(s: string)
  {
    && |s| >= 19
    && (forall i :: 0 <= i < 18 ==> IsDigit(s[i]))
    && s[18] == '/'
    && MatchesToken(s[19..])
  }

  predicate MatchesToken(s: string)
  {
    AllTokenChars(s) || (|s| > 0 && s[|s| - 1] == '/' && AllTokenChars(s[..|s| - 1]))
  }

  datatype FormValidation = Ok | Error(message: string)

  function DoCheckWebhookURL(value: string): (r: FormValidation)
    ensures r.Ok? <==> IsWebhookUrl(value)
    ensures r.Error? ==> r.message == InvalidWebhookMessage
  {
    if !IsWebhookUrl(value) then Error(InvalidWebhookMessage) else Ok
  }

  /** The parts of a webhook URL, as an independent description of the shape. */
  datatype Channel = Stable | Canary | Ptb
  datatype WebhookUrl = WebhookUrl(channel: Channel, id: string, token: string, trailingSlash: bool)

  predicate WellFormedParts(w: WebhookUrl)
  {
    |w.id| == 18 && (forall i :: 0 <= i < 18 ==> IsDigit(w.id[i])) && AllTokenChars(w.token)
  }

  function ChannelHost(c: Channel): string
  {
    match c
    case Stable => ""
    case Canary => "canary."
    case Ptb => "ptb."
  }

  /** The part after the webhooks path: id, '/', token, optional '/'. */
  function Tail(w: WebhookUrl): string
  {
    w.id + "/" + (w.token + if w.trailingSlash then "/" else "")
  }

  function RenderWebhookUrl(w: WebhookUrl): string
  {
    Scheme + (ChannelHost(w.channel) + (WebhooksPath + Tail(w)))
  }

  lemma TailMatches(w: WebhookUrl)
    requires WellFormedParts(w)
    ensures MatchesIdAndToken(Tail(w))
  {
    var t := Tail(w);
    var rest := w.token + if w.trailingSlash then "/" else "";
    assert t[19..] == rest;
    if w.trailingSlash {
      assert rest[..|rest| - 1] == w.token;
    }
  }

  /** Every well-formed set of parts renders to a URL the validator accepts. */
  lemma RenderedIsAccepted(w: WebhookUrl)
    requires WellFormedParts(w)
    ensures IsWebhookUrl(RenderWebhookUrl(w))
  {
    TailMatches(w);
    var path := WebhooksPath + Tail(w);
    assert path[|WebhooksPath|..] == Tail(w);
    var host := ChannelHost(w.channel) + path;
    assert RenderWebhookUrl(w)[|Scheme|..] == host;
    match w.channel
    case Stable => assert host == path;
    case Canary => assert host[7..] == path;
    case Ptb => assert host[4..] == path;
  }

  lemma PartsOfTail(c: Channel, t: string) returns (w: WebhookUrl)
    requires MatchesIdAndToken(t)
    ensures WellFormedParts(w) && w.channel == c && Tail(w) == t
  {
    var rest := t[19..];
    var slash := !AllTokenChars(rest);
    var token := if slash then rest[..|rest| - 1] else rest;
    w := WebhookUrl(c, t[..18], token, slash);
    assert rest == token + (if slash then "/" else "");
    assert t == t[..18] + "/" + rest;
  }

  lemma PartsOfPath(c: Channel, p: string) returns (w: WebhookUrl)
    requires MatchesPath(p)
    ensures WellFormedParts(w) && w.channel == c
    ensures p == WebhooksPath + Tail(w)
  {
    w := PartsOfTail(c, p[|WebhooksPath|..]);
    assert p == WebhooksPath + p[|WebhooksPath|..];
  }

  lemma PartsOfHost(h: string) returns (w: WebhookUrl)
    requires MatchesHost(h)
    ensures WellFormedParts(w)
    ensures h == ChannelHost(w.channel) + (WebhooksPath + Tail(w))
  {
    if "canary." <= h && MatchesPath(h[7..]) {
      w := PartsOfPath(Canary, h[7..]);
      assert h == "canary." + h[7..];
    } else if "ptb." <= h && MatchesPath(h[4..]) {
      w := PartsOfPath(Ptb, h[4..]);
      assert h == "ptb." + h[4..];
    } else {
      w := PartsOfPath(Stable, h);
      assert ChannelHost(w.channel) + h == h;
    }
  }

  /** Every URL the validator accepts is the rendering of well-formed parts. */
  lemma AcceptedIsRendered(s: string)
    requires IsWebhookUrl(s)
    ensures exists w :: WellFormedParts(w) && RenderWebhookUrl(w) == s
  {
    var h := s[|Scheme|..];
    assert s == Scheme + h;
    var w := PartsOfHost(h);
    assert RenderWebhookUrl(w) == s;
  }

  // ---------------------------------------------------------------------------
  // Build facts and the webhook

  /** The build before this one, if any, with its possibly null result. */
  datatype Previous = NoPreviousBuild | PreviousBuild(result: Option<Result>)

  /** A configuration of a matrix project: the parent's display name and the
      axis values of this combination, in iteration order. */
  datatype MatrixConfiguration = MatrixConfiguration(parentDisplayName: string, combination: seq<(string, string)>)

  /** What the publisher reads from the build; result None stands for null. */
  datatype Build = Build(
    id: string,
    result: Option<Result>,
    previous: Previous,
    displayName: string,
    matrix: Option<MatrixConfiguration>,
    url: string,
    hudsonVersion: string,
    changes: seq<EmbedDescription.ChangeEntry>,
    artifacts: seq<string>)

  /** The global Jenkins location configuration; url None stands for null. */
  datatype LocationConfiguration = LocationConfiguration(url: Option<string>)

  /** The fields set on the outbound webhook. */
  datatype Webhook = Webhook(
    target: string,
    title: Option<string>,
    url: Option<string>,
    thumbnail: Option<string>,
    description: Option<string>,
    status: Option<StatusColor>,
    footer: Option<string>)

  predicate UrlMissing(config: LocationConfiguration)
  {
    config.url.None? || config.url.value == ""
  }

  const MatrixHeader: string := "**Configuration matrix:**\n"

  function AxisLine(axis: (string, string)): string
  {
    " - " + axis.0 + ": " + axis.1 + "\n"
  }

  function AxisLines(combination: seq<(string, string)>): seq<string>
  {
    seq(|combination|, k requires 0 <= k < |combination| => AxisLine(combination[k]))
  }

  /** The matrix block of the description; empty for an ordinary project. */
  function MatrixBlock(matrix: Option<MatrixConfiguration>): string
  {
    if matrix.None? then "" else MatrixHeader + Concat(AxisLines(matrix.value.combination))
  }

  /** How the build id or the status shows: as a link to `link`, or as plain text. */
  function LinkedText(text: string, link: Option<string>): string
  {
    if link.Some? then MarkdownHyperlink(text, link.value) else text
  }

  /** The line for the branch, when one is configured. */
  function BranchLine(branchName: Option<string>, expand: string -> string): string
  {
    if branchName.Some? && branchName.value != "" then "**Branch:** " + expand(branchName.value) + "\n" else ""
  }

  /** The footer line: the Jenkins version, then the plugin's name and version. */
  function Footer(hudsonVersion: string): string
  {
    "Jenkins v" + hudsonVersion + ", " + Name + " v" + Version
  }

  /** An axis block lists every axis once, in order: the block up to axis i
      followed by axis i's line is the block up to i + 1. */
  lemma MatrixBlockExtends(combination: seq<(string, string)>, i: nat)
    requires i < |combination|
    ensures MatrixHeader + Concat(AxisLines(combination[..i + 1]))
         == MatrixHeader + Concat(AxisLines(combination[..i])) + AxisLine(combination[i])
  {
    var lines := AxisLines(combination[..i + 1]);
    assert lines[..|lines| - 1] == AxisLines(combination[..i]);
  }

  /** The block for a two-axis combination lists the axes in the order
      given, here the key order in which a Jenkins combination yields them. */
  lemma TwoAxisBlock(parent: string)
    ensures MatrixBlock(Some(MatrixConfiguration(parent, [("arch", "x64"), ("os", "linux")])))
         == MatrixHeader + (" - arch: x64\n" + " - os: linux\n")
  {
    var arch, os := " - arch: x64\n", " - os: linux\n";
    var lines := AxisLines([("arch", "x64"), ("os", "linux")]);
    assert lines == [arch, os] by {
      assert AxisLine(("arch", "x64")) == arch;
      assert AxisLine(("os", "linux")) == os;
    }
    assert Concat([arch, os]) == arch + os by {
      ConcatCons(arch, [os]);
      ConcatCons(os, []);
      assert [arch] + [os] == [arch, os];
    }
  }

  /** The status colour, assigned in sequence: each later test overrides the
      earlier ones. */
  method StatusColorOf(buildResult: Result) returns (statusColor: StatusColor)
    ensures statusColor == ColorFor(buildResult)
  {
    statusColor := Green;
    if buildResult.IsBetterOrEqualTo(Success) { statusColor := Green; }
    if buildResult.IsWorseThan(Success) { statusColor := Yellow; }
    if buildResult.IsWorseThan(Unstable) { statusColor := Red; }
  }

  /** The matrix block, grown one axis line at a time. */
  method CombinationString(combination: seq<(string, string)>) returns (block: string)
    ensures block == MatrixHeader + Concat(AxisLines(combination))
  {
    block := MatrixHeader;
    for i := 0 to |combination|
      invariant block == MatrixHeader + Concat(AxisLines(combination[..i]))
    {
      MatrixBlockExtends(combination, i);
      var (key, value) := combination[i];
      block := block + " - " + key + ": " + value + "\n";
    }
    assert combination[..|combination|] == combination;
  }

  // ---------------------------------------------------------------------------
  // The publisher

  class WebhookPublisher {
    const webhookURL: string
    const branchName: Option<string>
    const statusTitle: Option<string>
    const thumbnailURL: Option<string>
    const sendOnStateChange: bool
    var enableUrlLinking: bool
    const enableArtifactList: bool
    const enableFooterInfo: bool

    constructor (webhookURL: string, thumbnailURL: Option<string>, sendOnStateChange: bool,
                 statusTitle: Option<string>, branchName: Option<string>, enableUrlLinking: bool,
                 enableArtifactList: bool, enableFooterInfo: bool)
      ensures this.webhookURL == webhookURL && this.thumbnailURL == thumbnailURL
      ensures this.sendOnStateChange == sendOnStateChange && this.statusTitle == statusTitle
      ensures this.branchName == branchName && this.enableUrlLinking == enableUrlLinking
      ensures this.enableArtifactList == enableArtifactList && this.enableFooterInfo == enableFooterInfo
    {
      this.webhookURL := webhookURL;
      this.thumbnailURL := thumbnailURL;
      this.sendOnStateChange := sendOnStateChange;
      this.enableUrlLinking := enableUrlLinking;
      this.enableArtifactList := enableArtifactList;
      this.enableFooterInfo := enableFooterInfo;
      this.branchName := branchName;
      this.statusTitle := statusTitle;
    }

    /** Does a call reach the point where linking is checked? */
    predicate ReachesLinkCheck(build: Build, config: Option<LocationConfiguration>)
    {
      config.Some? && build.result.Some? && webhookURL != ""
    }

    /** The reasons for which no notification is sent. */
    predicate Suppressed(build: Build, config: Option<LocationConfiguration>)
    {
      || config.None?
      || build.result.None?
      || webhookURL == ""
      || (sendOnStateChange && build.previous.PreviousBuild? && build.previous.result == build.result)
      || !build.result.value.completeBuild
    }

    /** The linking flag after a call that started with `linking`. */
    function LinkingAfter(linking: bool, build: Build, config: Option<LocationConfiguration>): bool
    {
      if ReachesLinkCheck(build, config) && UrlMissing(config.value) then false else linking
    }

    /** The embed title; unless a custom title replaces it, it ends with the
        build number. */
    function Title(build: Build, expand: string -> string): (r: string)
      ensures build.matrix.Some? || statusTitle.None? || statusTitle.value == "" ==>
                |r| >= |build.id| + 2 && r[|r| - |build.id| - 2..] == " #" + build.id
    {
      if build.matrix.Some? then build.matrix.value.parentDisplayName + " #" + build.id
      else if statusTitle.Some? && statusTitle.value != "" then expand(statusTitle.value)
      else build.displayName + " #" + build.id
    }

    /** The description prefix: branch line, build and status lines, matrix block. */
    function DescriptionPrefix(build: Build, link: Option<string>, expand: string -> string): (r: string)
      requires build.result.Some?
      ensures var b := |BranchLine(branchName, expand)|;
              && |r| >= b + 11
              && r[..b] == BranchLine(branchName, expand)
              && r[b..b + 11] == "**Build:** "
      ensures var m := MatrixBlock(build.matrix);
              |m| <= |r| && r[|r| - |m|..] == m
      ensures var b, m := |BranchLine(branchName, expand)|, |MatrixBlock(build.matrix)|;
              && b + 11 <= |r| - m
              && r[b + 11..|r| - m]
                 == LinkedText(build.id, link) + "\n**Status:** "
                    + LinkedText(ToLowerAscii(build.result.value.name), link) + "\n"
    {
      var b, id, status := BranchLine(branchName, expand), LinkedText(build.id, link),
                           LinkedText(ToLowerAscii(build.result.value.name), link);
      SevenSlices(b, "**Build:** ", id, "\n**Status:** ", status, "\n", MatrixBlock(build.matrix));
      b + "**Build:** " + id + "\n**Status:** " + status + "\n" + MatrixBlock(build.matrix)
    }

    /** The webhook filled for a build that is notified; `linking` is the
        linking flag once the instance URL has been checked. */
    function Payload(linking: bool, build: Build, config: LocationConfiguration, expand: string -> string): (r: Webhook)
      requires build.result.Some?
      ensures r.url.Some? <==> linking
      ensures linking ==> r.url.value == NullToString(config.url) + build.url
      ensures r.description.Some? && |r.description.value| <= EmbedDescription.MaxEmbedStringLength
      ensures var p := DescriptionPrefix(build, r.url, expand);
              p <= r.description.value || r.description.value <= p
    {
      var link := if linking then Some(NullToString(config.url) + build.url) else None;
      Webhook(
        expand(webhookURL),
        Some(Title(build, expand)),
        link,
        thumbnailURL,
        Some(EmbedDescription.Describe(build.url, build.changes, build.artifacts, config.url,
                                       DescriptionPrefix(build, link, expand), enableArtifactList)),
        Some(ColorFor(build.result.value)),
        if enableFooterInfo then Some(Footer(build.hudsonVersion)) else None)
    }

    /** The webhook a call sends, or None when it sends nothing; `linking`
        is the flag's value when the call starts. */
    function Notification(linking: bool, build: Build, config: Option<LocationConfiguration>,
                          expand: string -> string): (r: Option<Webhook>)
      ensures r.None? <==> Suppressed(build, config)
      ensures r.Some? ==> (r.value.url.Some? <==> linking && !UrlMissing(config.value))
    {
      if Suppressed(build, config) then None
      else Some(Payload(LinkingAfter(linking, build, config), build, config.value, expand))
    }

    /** A notification is sent exactly when none of the suppression rules
        applies: no global configuration, no result, no webhook URL, the same
        result as the previous build in state-change mode, or an incomplete
        result. */
    lemma SentUnlessSuppressed(linking: bool, build: Build, config: Option<LocationConfiguration>,
                               expand: string -> string)
      ensures Notification(linking, build, config, expand).None? <==> Suppressed(build, config)
      ensures config.None? || build.result.None? || webhookURL == "" ==>
                Notification(linking, build, config, expand).None?
      ensures sendOnStateChange && build.previous == PreviousBuild(build.result) ==>
                Notification(linking, build, config, expand).None?
      ensures build.result.Some? && !build.result.value.completeBuild ==>
                Notification(linking, build, config, expand).None?
    {
    }

    /** The fields of a sent webhook. */
    lemma SentPayload(linking: bool, build: Build, config: Option<LocationConfiguration>,
                      expand: string -> string)
      requires !Suppressed(build, config)
      ensures var w := Notification(linking, build, config, expand).value;
              var active := linking && !UrlMissing(config.value);
              && w.target == expand(webhookURL)
              && w.title == Some(Title(build, expand))
              && w.status == Some(ColorFor(build.result.value))
              && w.thumbnail == thumbnailURL
              && (w.url.Some? <==> active)
              && (active ==> w.url == Some(config.value.url.value + build.url))
              && w.description.Some? && |w.description.value| <= EmbedDescription.MaxEmbedStringLength
              && w.footer == if enableFooterInfo then Some(Footer(build.hudsonVersion)) else None
    {
      var link := if LinkingAfter(linking, build, config)
                  then Some(NullToString(config.value.url) + build.url) else None;
      var w := Notification(linking, build, config, expand).value;
      assert w == Payload(LinkingAfter(linking, build, config), build, config.value, expand);
      assert w.url == link;
    }

    /** When linking is active, the build and status links in the prefix both
        lead to the build's page under the instance URL. */
    lemma LinksLeadToBuild(build: Build, instanceUrl: string, expand: string -> string)
      requires build.result.Some?
      ensures var url := instanceUrl + build.url;
              var target := EscapeParens(url);
              && DescriptionPrefix(build, Some(url), expand)
                 == BranchLine(branchName, expand)
                    + "**Build:** " + ("[" + build.id + "](" + target + ")")
                    + "\n**Status:** " + ("[" + ToLowerAscii(build.result.value.name) + "](" + target + ")") + "\n"
                    + MatrixBlock(build.matrix)
              && Unescape(target) == url && NoBareParen(target)
    {
      UnescapeEscape(instanceUrl + build.url);
    }

    /** Once switched off, linking stays off: every later call leaves the flag
        false and sends no URL, whatever the instance URL is then. */
    lemma LinkingStaysOff(build: Build, config: Option<LocationConfiguration>, expand: string -> string)
      ensures !LinkingAfter(false, build, config)
      ensures var n := Notification(false, build, config, expand);
              n.Some? ==> n.value.url.None? && n.value.description.Some?
    {
    }

    /** The flag is switched off exactly when a call gets past the first three
        checks while linking is on and the instance URL is null or empty. */
    lemma LinkingSwitchOff(build: Build, config: Option<LocationConfiguration>)
      ensures !LinkingAfter(true, build, config) <==> ReachesLinkCheck(build, config) && UrlMissing(config.value)
    {
    }

    /** A matrix configuration is titled after its parent project, whatever
        custom title is configured. */
    lemma MatrixTitle(build: Build, expand: string -> string)
      requires build.matrix.Some?
      ensures Title(build, expand) == build.matrix.value.parentDisplayName + " #" + build.id
    {
    }

    /** Without a matrix, a non-empty custom title is expanded and used;
        otherwise the project's display name and the build id. */
    lemma PlainTitle(build: Build, expand: string -> string)
      requires build.matrix.None?
      ensures statusTitle.Some? && statusTitle.value != "" ==> Title(build, expand) == expand(statusTitle.value)
      ensures statusTitle.None? || statusTitle.value == "" ==> Title(build, expand) == build.displayName + " #" + build.id
    {
    }

    /** Runs after a build: decides, composes and requests the send. Returns
        true on every path; `sent` is the webhook handed to the sender. */
    method Perform(build: Build, globalConfig: Option<LocationConfiguration>, expand: string -> string)
      returns (done: bool, sent: Option<Webhook>)
      modifies this
      ensures done
      ensures enableUrlLinking == LinkingAfter(old(enableUrlLinking), build, globalConfig)
      ensures sent == Notification(old(enableUrlLinking), build, globalConfig, expand)
    {
      if globalConfig.None? {
        return true, None;
      }
      if build.result.None? {
        return true, None;
      }

      var wh := Webhook(expand(webhookURL), None, None, None, None, None, None);

      if webhookURL == "" {
        return true, None;
      }

      if enableUrlLinking && (globalConfig.value.url.None? || globalConfig.value.url.value == "") {
        // Disable linking when the instance URL isn't set.
        enableUrlLinking := false;
      }

      if sendOnStateChange {
        if build.previous.PreviousBuild? && build.previous.result == build.result {
          return true, None;
        }
      }

      if !build.result.value.completeBuild {
        return true, None;
      }

      wh := Compose(wh, build, globalConfig.value, expand);
      return true, Some(wh);
    }

    /** Fills the webhook for a complete build, field by field. */
    method Compose(wh0: Webhook, build: Build, globalConfig: LocationConfiguration, expand: string -> string)
      returns (wh: Webhook)
      requires build.result.Some? && build.result.value.completeBuild
      requires wh0 == Webhook(expand(webhookURL), None, None, None, None, None, None)
      ensures wh == Payload(enableUrlLinking, build, globalConfig, expand)
    {
      wh := wh0;
      var buildResult := build.result.value;
      var statusColor := StatusColorOf(buildResult);

      if statusTitle.Some? && statusTitle.value != "" {
        wh := wh.(title := Some(expand(statusTitle.value)));
      } else {
        wh := wh.(title := Some(build.displayName + " #" + build.id));
      }

      var combinationString := "";
      if build.matrix.Some? {
        wh := wh.(title := Some(build.matrix.value.parentDisplayName + " #" + build.id));
        combinationString := CombinationString(build.matrix.value.combination);
      }
      assert wh.title == Some(Title(build, expand));
      assert combinationString == MatrixBlock(build.matrix);

      var url := NullToString(globalConfig.url) + build.url;
      var link := if enableUrlLinking then Some(url) else None;
      var descriptionPrefix := PrefixOf(build, link, expand, combinationString);
      if enableUrlLinking {
        wh := wh.(url := Some(url));
      }

      wh := wh.(thumbnail := thumbnailURL);
      var description := new EmbedDescription.EmbedDescription(
        build.url, build.changes, build.artifacts, globalConfig.url, descriptionPrefix, enableArtifactList);
      wh := wh.(description := Some(description.ToString()));
      wh := wh.(status := Some(statusColor));

      if enableFooterInfo {
        wh := wh.(footer := Some("Jenkins v" + build.hudsonVersion + ", " + Name + " v" + Version));
      }
    }

    /** The description prefix: branch line, build and status as links or plain
        text, then the matrix block. */
    method PrefixOf(build: Build, link: Option<string>, expand: string -> string, combinationString: string)
      returns (descriptionPrefix: string)
      requires build.result.Some?
      requires combinationString == MatrixBlock(build.matrix)
      ensures descriptionPrefix == DescriptionPrefix(build, link, expand)
    {
      var branchNameString := "";
      if branchName.Some? && branchName.value != "" {
        branchNameString := "**Branch:** " + expand(branchName.value) + "\n";
      }
      var statusText := ToLowerAscii(build.result.value.name);
      if link.Some? {
        descriptionPrefix := branchNameString
          + "**Build:** "
          + MarkdownHyperlink(build.id, link.value)
          + "\n**Status:** "
          + MarkdownHyperlink(statusText, link.value) + "\n";
      } else {
        descriptionPrefix := branchNameString
          + "**Build:** "
          + build.id
          + "\n**Status:** "
          + statusText + "\n";
      }
      descriptionPrefix := descriptionPrefix + combinationString;
    }
  }

  /** Two calls on one publisher: once a call has switched linking off for a
      missing instance URL, a later call sends no URL even when the instance
      URL has been set in the meantime. */
  method LinkingOffAcrossCalls(publisher: WebhookPublisher, first: Build, second: Build,
                               blank: LocationConfiguration, later: LocationConfiguration,
                               expand: string -> string)
      returns (sent: Option<Webhook>)
    requires publisher.enableUrlLinking && publisher.webhookURL != ""
    requires first.result.Some? && UrlMissing(blank)
    modifies publisher
    ensures !publisher.enableUrlLinking
    ensures sent.Some? ==> sent.value.url.None?
  {
    var _, _ := publisher.Perform(first, Some(blank), expand);
    var _, s := publisher.Perform(second, Some(later), expand);
    publisher.LinkingStaysOff(second, Some(later), expand);
    sent := s;
  }
}
