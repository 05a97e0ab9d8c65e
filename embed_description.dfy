/** The bounded description builder of util/EmbedDescription.java.

    The builder collects three parts of a chat-message description (a prefix,
    a changes list and an optional artifacts list) and then shrinks them, in a
    fixed order of priority, until the joined text fits in 2048 characters:
    first the changes list is cut to five elements, then the artifacts list is
    collapsed to the bare artifacts URL, and as the last resort the text is cut
    to 2047 characters.

    The specification functions (Initial, Shrink, Finish, Describe) say what
    the imperative class EmbedDescription computes; the lemmas state the
    guarantees of the algorithm about them. */
module EmbedDescription {
  import opened Wrappers
  import opened Strings

  /** The maximum length of an embed description. */
  const MaxEmbedStringLength: nat := 2048

  /** Number of changes-list elements kept by pruning: the header and four lines. */
  const KeptChanges: nat := 5

  const ChangesHeader: string := "\n**Changes:**\n"
  const NoChanges: string := "\n*No changes.*\n"
  const ArtifactsHeader: string := "\n**Artifacts:**\n"
  const NoArtifacts: string := "\n*No artifacts saved.*"

  /** One entry of a build's change set: the commit id (None when the SCM
      reports a null id), the commit message and the author's full name. */
  datatype ChangeEntry = ChangeEntry(commitId: Option<string>, msg: string, author: string)

  /** The three ordered parts of a description. */
  datatype Sections = Sections(prefix: string, changes: seq<string>, artifacts: seq<string>)
  {
    /** The description these parts make: prefix, then changes, then artifacts. */
    function Text(): string
    {
      prefix + Concat(changes) + Concat(artifacts)
    }
  }

  // ---------------------------------------------------------------------------
  // Building the lists

  /** The abbreviated commit id shown for a change. */
  function ShortCommitId(id: Option<string>): (r: string)
    ensures id.None? ==> r == "null"
    ensures id.Some? ==> r <= id.value
    ensures id.Some? ==> |r| == if |id.value| < 6 then |id.value| else 6
  {
    match id
    case None => "null"
    case Some(v) => if |v| < 6 then v else v[..6]
  }

  /** The line of one change, with the format's line separator fixed to "\n". */
  function ChangeLine(e: ChangeEntry): string
  {
    "   - ``" + ShortCommitId(e.commitId) + "`` *" + e.msg + " - " + e.author + "*\n"
  }

  /** The short id, the message and the author each sit at a fixed offset of
      a change line, and the line ends with a newline. */
  lemma ChangeLineFields(e: ChangeEntry)
    ensures var r, id := ChangeLine(e), ShortCommitId(e.commitId);
            && |r| == 16 + |id| + |e.msg| + |e.author|
            && r[..7] == "   - ``"
            && r[7..7 + |id|] == id
            && r[7 + |id|..11 + |id|] == "`` *"
            && r[11 + |id| + |e.msg|..14 + |id| + |e.msg|] == " - "
            && r[|r| - 2..] == "*\n"
            && r[11 + |id|..11 + |id| + |e.msg|] == e.msg
            && r[14 + |id| + |e.msg|..14 + |id| + |e.msg| + |e.author|] == e.author
  {
  }

  function ChangeLines(changes: seq<ChangeEntry>): seq<string>
  {
    seq(|changes|, k requires 0 <= k < |changes| => ChangeLine(changes[k]))
  }

  /** The base URL of a build's artifacts. */
  function ArtifactsUrl(instanceUrl: Option<string>, buildUrl: string): string
  {
    NullToString(instanceUrl) + buildUrl + "artifact/"
  }

  /** The artifacts URL is the instance URL (the text "null" when it is
      unset), then the build's URL, then "artifact/". */
  lemma ArtifactsUrlParts(instanceUrl: Option<string>, buildUrl: string)
    ensures var r, base := ArtifactsUrl(instanceUrl, buildUrl), NullToString(instanceUrl);
            && (instanceUrl.Some? ==> instanceUrl.value <= r)
            && (instanceUrl.None? ==> "null" <= r)
            && |r| == |base| + |buildUrl| + 9
            && r[|base|..|r| - 9] == buildUrl
            && r[|r| - 9..] == "artifact/"
  {
  }

  function ArtifactLine(artifactsUrl: string, href: string): string
  {
    " - " + artifactsUrl + href + "\n"
  }

  /** An artifact line is a list item holding the artifact's full URL, the
      base URL followed by its href, and ends with a newline. */
  lemma ArtifactLineFields(artifactsUrl: string, href: string)
    ensures var r := ArtifactLine(artifactsUrl, href);
            && |r| == |artifactsUrl| + |href| + 4
            && r[..3] == " - " && r[3..3 + |artifactsUrl|] == artifactsUrl
            && r[3 + |artifactsUrl|..|r| - 1] == href && r[|r| - 1] == '\n'
  {
  }

  function ArtifactLines(artifactsUrl: string, hrefs: seq<string>): seq<string>
  {
    seq(|hrefs|, k requires 0 <= k < |hrefs| => ArtifactLine(artifactsUrl, hrefs[k]))
  }

  /** The changes list before any shrinking. */
  function InitialChanges(changes: seq<ChangeEntry>): seq<string>
  {
    [ChangesHeader] + if |changes| == 0 then [NoChanges] else ChangeLines(changes)
  }

  /** The artifacts list before any shrinking; empty when listing is disabled. */
  function InitialArtifacts(enabled: bool, artifactsUrl: string, hrefs: seq<string>): seq<string>
  {
    if !enabled then []
    else [ArtifactsHeader] + if |hrefs| == 0 then [NoArtifacts] else ArtifactLines(artifactsUrl, hrefs)
  }

  // ---------------------------------------------------------------------------
  // The shrink loop as functions

  predicate Fits(s: Sections)
  {
    |s.Text()| <= MaxEmbedStringLength
  }

  /** How many shrink steps are still available: pruning and collapsing each
      happen at most once. */
  function Measure(s: Sections): nat
  {
    (if |s.changes| > KeptChanges then 1 else 0) + (if |s.artifacts| > 1 then 1 else 0)
  }

  /** The parts once the shrink loop stops, before any hard truncation. */
  function Shrink(s: Sections, artifactsUrl: string): (r: Sections)
    ensures r.prefix == s.prefix
    ensures Fits(r) || (|r.changes| <= KeptChanges && |r.artifacts| <= 1)
    ensures Fits(s) ==> r == s
    // Pruning only removes from the end, and leaves exactly five elements.
    ensures r.changes == s.changes || (|s.changes| > KeptChanges && r.changes == s.changes[..KeptChanges])
    ensures r.changes != s.changes ==> !Fits(s)
    // Collapsing replaces the whole list, header included, and comes after pruning.
    ensures r.artifacts == s.artifacts
         || (|s.artifacts| > 1 && |r.changes| <= KeptChanges && r.artifacts == [artifactsUrl])
    ensures r.artifacts != s.artifacts ==> !Fits(s.(changes := r.changes))
    decreases Measure(s)
  {
    if Fits(s) then s
    else if |s.changes| > KeptChanges then Shrink(s.(changes := s.changes[..KeptChanges]), artifactsUrl)
    else if |s.artifacts| > 1 then Shrink(s.(artifacts := [artifactsUrl]), artifactsUrl)
    else s
  }

  /** The number of rounds the shrink loop runs, the truncating round included. */
  function Rounds(s: Sections, artifactsUrl: string): (n: nat)
    ensures n <= Measure(s) + 1
    ensures n <= 3
    ensures n == 0 <==> Fits(s)
    decreases Measure(s)
  {
    if Fits(s) then 0
    else if |s.changes| > KeptChanges then 1 + Rounds(s.(changes := s.changes[..KeptChanges]), artifactsUrl)
    else if |s.artifacts| > 1 then 1 + Rounds(s.(artifacts := [artifactsUrl]), artifactsUrl)
    else 1
  }

  /** The final description once the loop has stopped at s. */
  function Finish(s: Sections): (r: string)
    ensures |r| <= MaxEmbedStringLength
    ensures Fits(s) ==> r == s.Text()
    ensures !Fits(s) ==> |r| == MaxEmbedStringLength - 1 && r <= s.Text()
  {
    if Fits(s) then s.Text() else s.Text()[..MaxEmbedStringLength - 1]
  }

  /** The description built for a build: the specification of the class below.
      Whatever the input, it fits; when everything fits it is the whole text,
      in the order prefix, changes, artifacts; when truncation fires it is
      exactly 2047 characters cut from the shrunk text; otherwise it starts
      with the unmodified prefix. */
  function Describe(buildUrl: string, changes: seq<ChangeEntry>, hrefs: seq<string>,
                    instanceUrl: Option<string>, prefix: string, enableArtifactsList: bool): (r: string)
    ensures var url := ArtifactsUrl(instanceUrl, buildUrl);
            var whole := prefix + Concat(InitialChanges(changes))
                                + Concat(InitialArtifacts(enableArtifactsList, url, hrefs));
            var shrunk := Shrink(Sections(prefix, InitialChanges(changes),
                                          InitialArtifacts(enableArtifactsList, url, hrefs)), url);
            && |r| <= MaxEmbedStringLength
            && (|whole| <= MaxEmbedStringLength ==> r == whole)
            && (Truncated(buildUrl, changes, hrefs, instanceUrl, prefix, enableArtifactsList) ==>
                  |r| == MaxEmbedStringLength - 1 && r <= shrunk.Text())
            && (!Truncated(buildUrl, changes, hrefs, instanceUrl, prefix, enableArtifactsList) ==>
                  prefix <= r && r == shrunk.Text())
            && (prefix <= r || r <= prefix)
  {
    var url := ArtifactsUrl(instanceUrl, buildUrl);
    Finish(Shrink(Sections(prefix, InitialChanges(changes), InitialArtifacts(enableArtifactsList, url, hrefs)), url))
  }

  /** Did the hard-truncation fallback fire? */
  predicate Truncated(buildUrl: string, changes: seq<ChangeEntry>, hrefs: seq<string>,
                      instanceUrl: Option<string>, prefix: string, enableArtifactsList: bool)
  {
    var url := ArtifactsUrl(instanceUrl, buildUrl);
    !Fits(Shrink(Sections(prefix, InitialChanges(changes), InitialArtifacts(enableArtifactsList, url, hrefs)), url))
  }

  // ---------------------------------------------------------------------------
  // Guarantees of the builder

  /** The lists for an empty change set, for a build without saved artifacts,
      and for a disabled artifacts list. */
  lemma EmptyAndDisabledLists(artifactsUrl: string, hrefs: seq<string>)
    ensures Concat(InitialChanges([])) == "\n**Changes:**\n" + "\n*No changes.*\n"
    ensures Concat(InitialArtifacts(true, artifactsUrl, [])) == "\n**Artifacts:**\n" + "\n*No artifacts saved.*"
    ensures InitialArtifacts(false, artifactsUrl, hrefs) == []
  {
    assert InitialChanges([]) == [ChangesHeader, NoChanges];
    assert InitialArtifacts(true, artifactsUrl, []) == [ArtifactsHeader, NoArtifacts];
  }

  /** A stopped loop stays stopped: shrinking the shrunk parts changes nothing. */
  lemma ShrinkIdempotent(s: Sections, artifactsUrl: string)
    ensures Shrink(Shrink(s, artifactsUrl), artifactsUrl) == Shrink(s, artifactsUrl)
  {
  }

  /** Pruning never makes the changes text longer, and keeps its beginning. */
  lemma ShrinkKeepsChangesPrefix(s: Sections, artifactsUrl: string)
    ensures var r := Shrink(s, artifactsUrl);
            Concat(r.changes) <= Concat(s.changes) && |Concat(r.changes)| <= |Concat(s.changes)|
  {
    var r := Shrink(s, artifactsUrl);
    if r.changes != s.changes {
      ConcatPrefix(s.changes, KeptChanges);
    }
  }

  /** An empty change set with artifacts disabled gives the prefix followed by
      the changes header and the "no changes" line (cut if the prefix alone is
      too long). */
  lemma EmptyChangesNoArtifacts(buildUrl: string, hrefs: seq<string>, instanceUrl: Option<string>, prefix: string)
    ensures var whole := prefix + "\n**Changes:**\n\n*No changes.*\n";
            Describe(buildUrl, [], hrefs, instanceUrl, prefix, false)
              == if |whole| <= MaxEmbedStringLength then whole else whole[..MaxEmbedStringLength - 1]
  {
    var url := ArtifactsUrl(instanceUrl, buildUrl);
    assert InitialChanges([]) == [ChangesHeader, NoChanges];
    ConcatCons(ChangesHeader, [NoChanges]);
    ConcatCons(NoChanges, []);
    var s := Sections(prefix, InitialChanges([]), InitialArtifacts(false, url, hrefs));
    assert s.Text() == prefix + "\n**Changes:**\n\n*No changes.*\n" by {
      assert InitialArtifacts(false, url, hrefs) == [];
      assert Concat([]) == "";
    }
    assert |s.changes| <= KeptChanges && |s.artifacts| <= 1;
    assert Shrink(s, url) == s;
    assert Describe(buildUrl, [], hrefs, instanceUrl, prefix, false) == Finish(s);
  }

  /** With at least five changes, artifacts disabled and a text too long, the
      description keeps the header and the first four change lines in input
      order, provided these fit. */
  lemma LongChangeSetKeepsFirstFour(buildUrl: string, changes: seq<ChangeEntry>, hrefs: seq<string>,
                                    instanceUrl: Option<string>, prefix: string)
    requires |changes| >= 5
    requires |prefix + Concat(InitialChanges(changes))| > MaxEmbedStringLength
    requires |prefix| + |ChangesHeader + ChangeLine(changes[0]) + ChangeLine(changes[1])
                         + ChangeLine(changes[2]) + ChangeLine(changes[3])| <= MaxEmbedStringLength
    ensures Describe(buildUrl, changes, hrefs, instanceUrl, prefix, false)
         == prefix + (ChangesHeader + ChangeLine(changes[0]) + ChangeLine(changes[1])
                      + ChangeLine(changes[2]) + ChangeLine(changes[3]))
  {
    var kept := InitialChanges(changes)[..KeptChanges];
    var text := ChangesHeader + ChangeLine(changes[0]) + ChangeLine(changes[1])
              + ChangeLine(changes[2]) + ChangeLine(changes[3]);
    assert Concat(kept) == text by {
      assert kept == [ChangesHeader, ChangeLine(changes[0]), ChangeLine(changes[1]),
                      ChangeLine(changes[2]), ChangeLine(changes[3])];
      ConcatFive(ChangesHeader, ChangeLine(changes[0]), ChangeLine(changes[1]),
                 ChangeLine(changes[2]), ChangeLine(changes[3]));
    }
    var url := ArtifactsUrl(instanceUrl, buildUrl);
    var s := Sections(prefix, InitialChanges(changes), []);
    assert s.Text() == prefix + Concat(InitialChanges(changes)) by {
      assert Concat([]) == "";
    }
    assert s.(changes := kept).Text() == prefix + text by {
      assert Concat([]) == "";
    }
    assert |s.changes| > KeptChanges;
    PruneThenFit(s, url);
    assert Describe(buildUrl, changes, hrefs, instanceUrl, prefix, false) == Finish(Shrink(s, url));
  }

  /** One pruning round that makes the parts fit ends the loop with the pruned parts. */
  lemma PruneThenFit(s: Sections, artifactsUrl: string)
    requires |s.changes| > KeptChanges && !Fits(s)
    requires Fits(s.(changes := s.changes[..KeptChanges]))
    ensures Finish(Shrink(s, artifactsUrl)) == s.(changes := s.changes[..KeptChanges]).Text()
  {
  }

  // ---------------------------------------------------------------------------
  // The class

  class EmbedDescription {
    var changesList: seq<string>
    var artifactsList: seq<string>
    var prefix: string
    var finalDescription: string

    /** The parts currently held. */
    function Current(): Sections
      reads this
    {
      Sections(prefix, changesList, artifactsList)
    }

    /** After construction the parts are where the shrink loop stopped and the
        final description was taken from them. */
    predicate Valid()
      reads this
    {
      (Fits(Current()) || (|changesList| <= KeptChanges && |artifactsList| <= 1))
      && finalDescription == Finish(Current())
    }

    constructor (buildUrl: string, changes: seq<ChangeEntry>, hrefs: seq<string>,
                 instanceUrl: Option<string>, prefix: string, enableArtifactsList: bool)
      ensures Valid()
      ensures this.prefix == prefix
      ensures finalDescription == Describe(buildUrl, changes, hrefs, instanceUrl, prefix, enableArtifactsList)
      ensures var url := ArtifactsUrl(instanceUrl, buildUrl);
              Current() == Shrink(Sections(prefix, InitialChanges(changes),
                                           InitialArtifacts(enableArtifactsList, url, hrefs)), url)
    {
      var artifactsURL := ArtifactsUrl(instanceUrl, buildUrl);
      this.prefix := prefix;
      this.changesList := [ChangesHeader];
      this.artifactsList := if enableArtifactsList then [ArtifactsHeader] else [];
      this.finalDescription := "";
      new;
      AddChanges(changes);
      if enableArtifactsList {
        AddArtifacts(artifactsURL, hrefs);
      }

      ghost var initial := Current();
      var current := GetCurrentDescription();
      while |current| > MaxEmbedStringLength
        invariant this.prefix == prefix
        invariant current == Current().Text()
        invariant Shrink(Current(), artifactsURL) == Shrink(initial, artifactsURL)
        decreases Rounds(Current(), artifactsURL)
      {
        if |changesList| > KeptChanges {
          DwindleChanges();
        } else if |artifactsList| > 1 {
          CollapseArtifacts(artifactsURL);
        } else {
          // Worst case: truncate the description.
          finalDescription := current[..MaxEmbedStringLength - 1];
          return;
        }
        current := GetCurrentDescription();
      }
      finalDescription := current;
    }

    /** Appends the changes section's body: one line per change, or the
        "no changes" line. */
    method AddChanges(changes: seq<ChangeEntry>)
      modifies `changesList
      ensures changesList
           == old(changesList) + if |changes| == 0 then [NoChanges] else ChangeLines(changes)
    {
      if |changes| == 0 {
        changesList := changesList + [NoChanges];
      } else {
        for i := 0 to |changes|
          invariant changesList == old(changesList) + ChangeLines(changes[..i])
        {
          changesList := changesList + [ChangeLine(changes[i])];
        }
        assert changes[..|changes|] == changes;
      }
    }

    /** Appends the artifacts section's body: one line per artifact, or the
        "no artifacts" line. */
    method AddArtifacts(artifactsURL: string, hrefs: seq<string>)
      modifies `artifactsList
      ensures artifactsList
           == old(artifactsList) + if |hrefs| == 0 then [NoArtifacts] else ArtifactLines(artifactsURL, hrefs)
    {
      if |hrefs| == 0 {
        artifactsList := artifactsList + [NoArtifacts];
      } else {
        for i := 0 to |hrefs|
          invariant artifactsList == old(artifactsList) + ArtifactLines(artifactsURL, hrefs[..i])
        {
          artifactsList := artifactsList + [ArtifactLine(artifactsURL, hrefs[i])];
        }
        assert hrefs[..|hrefs|] == hrefs;
      }
    }

    /** Removes changes from the end until five elements are left. */
    method DwindleChanges()
      requires |changesList| > KeptChanges
      modifies `changesList
      ensures changesList == old(changesList)[..KeptChanges]
    {
      while |changesList| != KeptChanges
        invariant KeptChanges <= |changesList| <= |old(changesList)|
        invariant changesList == old(changesList)[..|changesList|]
        decreases |changesList|
      {
        changesList := changesList[..|changesList| - 1];
      }
    }

    /** Replaces the whole artifacts list, header included, by the bare URL. */
    method CollapseArtifacts(artifactsURL: string)
      modifies `artifactsList
      ensures artifactsList == [artifactsURL]
    {
      artifactsList := [];
      artifactsList := artifactsList + [artifactsURL];
    }

    /** The description the parts currently make. */
    method GetCurrentDescription() returns (description: string)
      ensures description == Current().Text()
    {
      description := prefix;
      for i := 0 to |changesList|
        invariant description == prefix + Concat(changesList[..i])
      {
        assert changesList[..i + 1][..i] == changesList[..i];
        description := description + changesList[i];
      }
      assert changesList[..|changesList|] == changesList;
      for i := 0 to |artifactsList|
        invariant description == prefix + Concat(changesList) + Concat(artifactsList[..i])
      {
        assert artifactsList[..i + 1][..i] == artifactsList[..i];
        description := description + artifactsList[i];
      }
      assert artifactsList[..|artifactsList|] == artifactsList;
    }

    function ToString(): (r: string)
      reads this
      requires Valid()
      ensures |r| <= MaxEmbedStringLength
      ensures prefix <= r || r <= prefix
      ensures Fits(Current()) ==> r == Current().Text()
    {
      finalDescription
    }
  }
}
