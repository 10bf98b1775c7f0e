/** Classification of a video source string as a YouTube URL.

    The program matches the pattern
      (https?://)?(www\.)?(youtube\.com/watch\?v=|youtu\.be/|youtube\.com/shorts/)
    against the START of the string only, so a string is a YouTube URL exactly
    when one of finitely many literal prefixes begins it. PatternMatches states
    that set-of-prefixes reading; IsYouTubeUrl consumes the optional parts
    greedily, the way a matcher scans the string. */
module YouTube {

  /** Alternatives of the optional scheme group, the empty one included. */
  const Schemes: set<string> := {"", "http://", "https://"}

  /** Alternatives of the optional host-prefix group. */
  const HostPrefixes: set<string> := {"", "www."}

  /** The three recognised host-and-path shapes. */
  const VideoPaths: set<string> := {"youtube.com/watch?v=", "youtu.be/", "youtube.com/shorts/"}

  /** Reference reading of the anchored pattern: some choice of the three
      groups, concatenated, is a prefix of s. Nothing is required after it. */
  predicate PatternMatches(s: string) {
    exists scheme, host, video | scheme in Schemes && host in HostPrefixes && video in VideoPaths ::
      scheme + host + video <= s
  }

  /** s[i..] starts with p[i..], compared character by character. */
  predicate StartsWithFrom(s: string, p: string, i: nat)
    decreases |p| - i
  {
    i >= |p| || (i < |s| && s[i] == p[i] && StartsWithFrom(s, p, i + 1))
  }

  /** s begins with the literal p. */
  predicate StartsWith(s: string, p: string) {
    StartsWithFrom(s, p, 0)
  }

  lemma {:induction false} StartsWithFromIsSliceEquality(s: string, p: string, i: nat)
    requires i <= |p|
    ensures StartsWithFrom(s, p, i) <==> i == |p| || (|p| <= |s| && s[i..|p|] == p[i..])
    decreases |p| - i
  {
    if i < |p| {
      StartsWithFromIsSliceEquality(s, p, i + 1);
      if |p| <= |s| {
        assert s[i..|p|] == [s[i]] + s[i + 1..|p|];
        assert p[i..] == [p[i]] + p[i + 1..];
      }
    }
  }

  /** The character-by-character comparison is the prefix relation on sequences. */
  lemma StartsWithIsPrefix(s: string, p: string)
    ensures StartsWith(s, p) <==> p <= s
  {
    StartsWithFromIsSliceEquality(s, p, 0);
    assert p[0..] == p;
  }

  /** Drops a leading "https://" or "http://", if any. */
  function StripScheme(s: string): string {
    if StartsWith(s, "https://") then s[8..] else if StartsWith(s, "http://") then s[7..] else s
  }

  /** Drops a leading "www.", if any. */
  function StripHostPrefix(s: string): string {
    if StartsWith(s, "www.") then s[4..] else s
  }

  predicate StartsWithVideoPath(s: string) {
    StartsWith(s, "youtube.com/watch?v=") || StartsWith(s, "youtu.be/") || StartsWith(s, "youtube.com/shorts/")
  }

  /** is_youtube_url: consume the optional scheme, then the optional "www.",
      then require one of the three host-and-path shapes. */
  predicate IsYouTubeUrl(path: string) {
    StartsWithVideoPath(StripHostPrefix(StripScheme(path)))
  }

  /** The three consumption steps read in terms of sequence prefixes. */
  lemma StripSchemeIsPrefix(s: string)
    ensures StripScheme(s) == if "https://" <= s then s[8..] else if "http://" <= s then s[7..] else s
  {
    StartsWithIsPrefix(s, "https://");
    StartsWithIsPrefix(s, "http://");
  }

  lemma StripHostPrefixIsPrefix(s: string)
    ensures StripHostPrefix(s) == if "www." <= s then s[4..] else s
  {
    StartsWithIsPrefix(s, "www.");
  }

  lemma StartsWithVideoPathIsPrefix(s: string)
    ensures StartsWithVideoPath(s) <==> "youtube.com/watch?v=" <= s || "youtu.be/" <= s || "youtube.com/shorts/" <= s
  {
    StartsWithIsPrefix(s, "youtube.com/watch?v=");
    StartsWithIsPrefix(s, "youtu.be/");
    StartsWithIsPrefix(s, "youtube.com/shorts/");
  }

  /** Greedy consumption agrees with the pattern's prefix reading: no
      alternative of a group can succeed where the longer one was taken,
      because the shorter choice leaves a character no later group accepts. */
  lemma IsYouTubeUrlMatchesPattern(s: string)
    ensures IsYouTubeUrl(s) <==> PatternMatches(s)
  {
    if IsYouTubeUrl(s) {
      GreedyMatchIsPatternMatch(s);
    }
    if PatternMatches(s) {
      var sc, h, v :| sc in Schemes && h in HostPrefixes && v in VideoPaths && sc + h + v <= s;
      PatternMatchIsGreedyMatch(s, sc, h, v);
    }
  }

  /** Two prefixes laid end to end form a prefix. */
  lemma PrefixThenPrefix(a: string, b: string, s: string)
    requires a <= s && b <= s[|a|..]
    ensures a + b <= s
  {
    assert a + b == s[..|a| + |b|];
  }

  /** Regrouping of a concatenation, stated apart from the callers so that
      the step is proved away from their string literals. */
  lemma ConcatAssoc(a: string, b: string, c: string)
    ensures a + b + c == a + (b + c)
  {
  }

  /** What follows a prefix of s is a prefix of the rest of s. */
  lemma PrefixRest(a: string, b: string, s: string)
    requires a + b <= s
    ensures a <= s && b <= s[|a|..]
  {
    assert (a + b)[..|a|] == a;
    assert (a + b)[|a|..] == b;
  }

  /** Greedy consumption of the scheme takes exactly the alternative that
      the pattern used, when what follows starts with 'w' or 'y'. */
  lemma SchemeConsumed(s: string, scheme: string, tail: string)
    requires scheme in Schemes && tail != [] && tail[0] in {'w', 'y'}
    requires scheme + tail <= s
    ensures StripScheme(s) == s[|scheme|..]
  {
    StripSchemeIsPrefix(s);
    assert s[|scheme|] == (scheme + tail)[|scheme|] == tail[0];
    if scheme == "http://" {
      assert s[..7] == scheme;
      assert s[4] == ':';
    } else if scheme == "https://" {
      assert s[..8] == scheme;
    }
  }

  /** Greedy consumption of "www." likewise, since every video path starts with 'y'. */
  lemma HostPrefixConsumed(s: string, host: string, video: string)
    requires host in HostPrefixes && video in VideoPaths
    requires host + video <= s
    ensures StripHostPrefix(s) == s[|host|..]
  {
    StripHostPrefixIsPrefix(s);
    assert s[|host|] == (host + video)[|host|] == video[0] == 'y';
    if host == "www." {
      assert s[..4] == host;
    }
  }

  /** Whatever follows the scheme in a match starts with 'w' or 'y'. */
  lemma HostThenVideoStart(host: string, video: string)
    requires host in HostPrefixes && video in VideoPaths
    ensures host + video != [] && (host + video)[0] in {'w', 'y'}
  {
    if host == "" {
      assert host + video == video;
    }
  }

  /** The scheme greedy consumption removes is one of the pattern's alternatives. */
  lemma SchemeSplit(s: string) returns (scheme: string)
    ensures scheme in Schemes && scheme <= s && StripScheme(s) == s[|scheme|..]
  {
    StripSchemeIsPrefix(s);
    scheme := if "https://" <= s then "https://" else if "http://" <= s then "http://" else "";
  }

  /** The host prefix greedy consumption removes is one of the pattern's alternatives. */
  lemma HostPrefixSplit(s: string) returns (host: string)
    ensures host in HostPrefixes && host <= s && StripHostPrefix(s) == s[|host|..]
  {
    StripHostPrefixIsPrefix(s);
    host := if "www." <= s then "www." else "";
  }

  lemma VideoPathSplit(s: string) returns (video: string)
    requires StartsWithVideoPath(s)
    ensures video in VideoPaths && video <= s
  {
    StartsWithVideoPathIsPrefix(s);
    video :=
      if "youtube.com/watch?v=" <= s then "youtube.com/watch?v="
      else if "youtu.be/" <= s then "youtu.be/"
      else "youtube.com/shorts/";
  }

  lemma GreedyMatchIsPatternMatch(s: string)
    requires IsYouTubeUrl(s)
    ensures PatternMatches(s)
  {
    var scheme := SchemeSplit(s);
    var afterScheme := StripScheme(s);
    var host := HostPrefixSplit(afterScheme);
    var video := VideoPathSplit(StripHostPrefix(afterScheme));
    assert scheme + host + video <= s by {
      PrefixThenPrefix(host, video, afterScheme);
      PrefixThenPrefix(scheme, host + video, s);
      ConcatAssoc(scheme, host, video);
    }
    PatternWitness(s, scheme, host, video);
  }

  /** One choice of the three groups that begins s is a match; stated apart
      so that the existential is met away from the callers' string literals. */
  lemma PatternWitness(s: string, scheme: string, host: string, video: string)
    requires scheme in Schemes && host in HostPrefixes && video in VideoPaths
    requires scheme + host + video <= s
    ensures PatternMatches(s)
  {
  }

  lemma PatternMatchIsGreedyMatch(s: string, scheme: string, host: string, video: string)
    requires scheme in Schemes && host in HostPrefixes && video in VideoPaths
    requires scheme + host + video <= s
    ensures IsYouTubeUrl(s)
  {
    var rest := s[|scheme|..];
    var rest2 := rest[|host|..];
    assert StripScheme(s) == rest && host + video <= rest by {
      HostThenVideoStart(host, video);
      ConcatAssoc(scheme, host, video);
      PrefixRest(scheme, host + video, s);
      SchemeConsumed(s, scheme, host + video);
    }
    assert StripHostPrefix(rest) == rest2 && video <= rest2 by {
      PrefixRest(host, video, rest);
      HostPrefixConsumed(rest, host, video);
    }
    assert StartsWithVideoPath(rest2) by {
      StartsWithVideoPathIsPrefix(rest2);
    }
  }

  /** Matching looks at a prefix only: anything may follow a match. */
  lemma ExtensionPreservesMatch(s: string, t: string)
    requires IsYouTubeUrl(s)
    ensures IsYouTubeUrl(s + t)
  {
    IsYouTubeUrlMatchesPattern(s);
    var sc, h, v :| sc in Schemes && h in HostPrefixes && v in VideoPaths && sc + h + v <= s;
    assert sc + h + v <= s + t;
    IsYouTubeUrlMatchesPattern(s + t);
  }

  /** Each of the eighteen literal prefixes, followed by any video
      identifier (the empty one included), is a YouTube URL. */
  lemma AcceptsEveryVideoId(scheme: string, host: string, video: string, id: string)
    requires scheme in Schemes && host in HostPrefixes && video in VideoPaths
    ensures IsYouTubeUrl(scheme + host + video + id)
  {
    var s := scheme + host + video + id;
    assert (scheme + host + video) == s[..|scheme + host + video|];
    PatternMatchIsGreedyMatch(s, scheme, host, video);
  }

  /** A string starts with every literal it begins with. */
  lemma StartsWithOwnPrefix(p: string, t: string)
    ensures StartsWith(p + t, p)
  {
    StartsWithIsPrefix(p + t, p);
    assert (p + t)[..|p|] == p;
  }

  /** One differing character is enough to fail a comparison. */
  lemma MismatchAt(s: string, p: string, k: nat)
    requires k < |p| && k < |s| && s[k] != p[k]
    ensures !StartsWith(s, p)
  {
    StartsWithIsPrefix(s, p);
  }

  /** A string whose first character cannot begin any alternative is not a
      YouTube URL: local file names, leading blanks, other schemes and an
      upper-case scheme all fail here. */
  lemma RejectsUnlessFirstCharacterFits(s: string)
    requires s == [] || s[0] !in {'h', 'w', 'y'}
    ensures !IsYouTubeUrl(s)
  {
    if s != [] {
      MismatchAt(s, "https://", 0);
      MismatchAt(s, "http://", 0);
      MismatchAt(s, "www.", 0);
      MismatchAt(s, "youtube.com/watch?v=", 0);
      MismatchAt(s, "youtu.be/", 0);
      MismatchAt(s, "youtube.com/shorts/", 0);
    }
  }

  /** Once the optional scheme and "www." are consumed, the host must start
      with a lower-case 'y': other subdomains and a capitalised host fail. */
  lemma RejectsHostNotStartingWithY(s: string)
    requires var rest := StripHostPrefix(StripScheme(s)); rest == [] || rest[0] != 'y'
    ensures !IsYouTubeUrl(s)
  {
    var rest := StripHostPrefix(StripScheme(s));
    if rest != [] {
      MismatchAt(rest, "youtube.com/watch?v=", 0);
      MismatchAt(rest, "youtu.be/", 0);
      MismatchAt(rest, "youtube.com/shorts/", 0);
    }
  }

  /** The standard watch, short-link and shorts URLs are recognised whatever video identifier
      follows, and an empty identifier is accepted too. */
  lemma AcceptsWatchUrl(id: string)
    ensures IsYouTubeUrl("https://www.youtube.com/watch?v=" + id)
  {
    var rest := "youtube.com/watch?v=" + id;
    assert "https://www.youtube.com/watch?v=" == "https://" + "www." + "youtube.com/watch?v=";
    assert "https://www.youtube.com/watch?v=" + id == "https://" + ("www." + rest);
    StartsWithOwnPrefix("https://", "www." + rest);
    StartsWithOwnPrefix("www.", rest);
    StartsWithOwnPrefix("youtube.com/watch?v=", id);
  }

  lemma AcceptsShortLink(id: string)
    ensures IsYouTubeUrl("https://youtu.be/" + id)
  {
    AcceptsEveryVideoId("https://", "", "youtu.be/", id);
    assert "https://" + "" + "youtu.be/" == "https://youtu.be/";
  }

  lemma AcceptsShortsUrl(id: string)
    ensures IsYouTubeUrl("https://youtube.com/shorts/" + id)
  {
    var rest := "youtube.com/shorts/" + id;
    assert "https://youtube.com/shorts/" == "https://" + "youtube.com/shorts/";
    assert "https://youtube.com/shorts/" + id == "https://" + rest;
    StartsWithOwnPrefix("https://", rest);
    MismatchAt(rest, "www.", 0);
    StartsWithOwnPrefix("youtube.com/shorts/", id);
  }

  lemma AcceptsBareShortLink(id: string)
    ensures IsYouTubeUrl("www.youtu.be/" + id)
  {
    AcceptsEveryVideoId("", "www.", "youtu.be/", id);
    assert "" + "www." + "youtu.be/" == "www.youtu.be/";
  }

  lemma AcceptsEmptyVideoId()
    ensures IsYouTubeUrl("youtu.be/")
  {
    AcceptsEveryVideoId("", "", "youtu.be/", "");
    assert "" + "" + "youtu.be/" + "" == "youtu.be/";
  }

  /** Local file names and strings where the pattern does not start the
      string, or uses another scheme, are not YouTube URLs. */
  lemma RejectedExamples(id: string)
    ensures !IsYouTubeUrl("clip.mp4")
    ensures !IsYouTubeUrl(" https://youtu.be/" + id)
    ensures !IsYouTubeUrl("ftp://youtu.be/" + id)
    ensures !IsYouTubeUrl("HTTPS://youtu.be/" + id)
  {
    RejectsUnlessFirstCharacterFits("clip.mp4");
    RejectsUnlessFirstCharacterFits(" https://youtu.be/" + id);
    RejectsUnlessFirstCharacterFits("ftp://youtu.be/" + id);
    RejectsUnlessFirstCharacterFits("HTTPS://youtu.be/" + id);
  }

  /** Hosts other than the recognised ones fail, and matching is case-sensitive. */
  lemma RejectsOtherSubdomain(id: string)
    ensures !IsYouTubeUrl("https://m.youtube.com/watch?v=" + id)
  {
    var rest := "m.youtube.com/watch?v=" + id;
    assert "https://m.youtube.com/watch?v=" == "https://" + "m.youtube.com/watch?v=";
    assert "https://m.youtube.com/watch?v=" + id == "https://" + rest;
    StartsWithOwnPrefix("https://", rest);
    MismatchAt(rest, "www.", 0);
    RejectsHostNotStartingWithY("https://" + rest);
  }

  lemma RejectsCapitalisedHost(id: string)
    ensures !IsYouTubeUrl("https://www.YouTube.com/watch?v=" + id)
  {
    var rest := "YouTube.com/watch?v=" + id;
    assert "https://www.YouTube.com/watch?v=" == "https://" + "www." + "YouTube.com/watch?v=";
    assert "https://www.YouTube.com/watch?v=" + id == "https://" + ("www." + rest);
    StartsWithOwnPrefix("https://", "www." + rest);
    StartsWithOwnPrefix("www.", rest);
    RejectsHostNotStartingWithY("https://" + ("www." + rest));
  }

  /** Only the listed paths of youtube.com are accepted. */
  lemma RejectsOtherPath(id: string)
    ensures !IsYouTubeUrl("https://www.youtube.com/embed/" + id)
  {
    var rest := "youtube.com/embed/" + id;
    assert "https://www.youtube.com/embed/" == "https://" + "www." + "youtube.com/embed/";
    assert "https://www.youtube.com/embed/" + id == "https://" + ("www." + rest);
    StartsWithOwnPrefix("https://", "www." + rest);
    StartsWithOwnPrefix("www.", rest);
    MismatchAt(rest, "youtube.com/watch?v=", 12);
    MismatchAt(rest, "youtu.be/", 5);
    MismatchAt(rest, "youtube.com/shorts/", 12);
  }

  /** The pattern's escaped '.' matches a dot and nothing else: any other
      character in that place is rejected. */
  lemma DotMatchesOnlyDot(c: char, id: string)
    requires c != '.'
    ensures !IsYouTubeUrl("youtube" + [c] + "com/watch?v=" + id)
  {
    var s := "youtube" + [c] + "com/watch?v=" + id;
    MismatchAt(s, "https://", 0);
    MismatchAt(s, "http://", 0);
    MismatchAt(s, "www.", 0);
    MismatchAt(s, "youtube.com/watch?v=", 7);
    MismatchAt(s, "youtu.be/", 5);
    MismatchAt(s, "youtube.com/shorts/", 7);
  }

  /** The pattern's escaped '?' is a literal question mark, not a quantifier
      making the preceding 'h' optional: both "watchv=" (the 'h' kept, the
      '?' left out) and "watcv=" (the 'h' dropped) are rejected. */
  lemma QuestionMarkIsLiteral(id: string)
    ensures !IsYouTubeUrl("youtube.com/watchv=" + id)
    ensures !IsYouTubeUrl("youtube.com/watcv=" + id)
  {
    var kept := "youtube.com/watchv=" + id;
    MismatchAt(kept, "https://", 0);
    MismatchAt(kept, "http://", 0);
    MismatchAt(kept, "www.", 0);
    MismatchAt(kept, "youtube.com/watch?v=", 17);
    MismatchAt(kept, "youtu.be/", 5);
    assert kept[12] == 'w';
    MismatchAt(kept, "youtube.com/shorts/", 12);

    var dropped := "youtube.com/watcv=" + id;
    MismatchAt(dropped, "https://", 0);
    MismatchAt(dropped, "http://", 0);
    MismatchAt(dropped, "www.", 0);
    MismatchAt(dropped, "youtube.com/watch?v=", 16);
    MismatchAt(dropped, "youtu.be/", 5);
    assert dropped[12] == 'w';
    MismatchAt(dropped, "youtube.com/shorts/", 12);
  }
}
