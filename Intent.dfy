/**
 * The classification and slot-extraction tail of MistralAgent.run (agent.py):
 * the model's reply is searched for the command name `create_group_chat`,
 * then for `user_mentions=\[(.*)\]`; the capture is split on `,`, each piece
 * is stripped, and the list is handed to create_group_chat. Otherwise the
 * reply itself is the answer.
 *
 * The documented reply format is `create_group_chat(user_mentions=[@user1, @user2])`.
 */
module Intent {
  import opened Wrappers
  import opened Text
  import opened Actions

  /** The only command the agent knows. */
  const CommandName: string := "create_group_chat"

  /** The literal part of the pattern before the capture group. */
  const Opening: string := "user_mentions=["

  /** No line break in s[a..b]; `.` in a Python regular expression does not match `\n`. */
  predicate NoNewline(s: string, a: nat, b: nat)
    requires a <= b <= |s|
  {
    forall m :: a <= m < b ==> s[m] != '\n'
  }

  /** The pattern `user_mentions=\[(.*)\]` matches `s` from index `i`, with its
      closing `]` at index `j`; the capture is s[i + |Opening|..j]. */
  predicate IsMatch(s: string, i: nat, j: nat)
    ensures IsMatch(s, i, j) ==> i < j < |s| && NoNewline(s, i, j + 1)
  {
    OccursAt(s, Opening, i) && i + |Opening| <= j < |s| && s[j] == ']' && NoNewline(s, i + |Opening|, j)
  }

  /** Where a match starts and where its closing `]` is. */
  datatype Span = Span(start: nat, close: nat)

  /** The last `]` at or after `pos` on the line that runs on from `k`: the
      end the greedy `.*` backtracks to. */
  function LastClose(s: string, k: nat, pos: nat): (r: Option<nat>)
    requires k <= pos <= |s| && NoNewline(s, k, pos)
    decreases |s| - pos
    ensures r.Some? ==> pos <= r.value < |s| && s[r.value] == ']' && NoNewline(s, k, r.value)
    ensures r.Some? ==> forall j :: pos <= j < |s| && s[j] == ']' && NoNewline(s, k, j) ==> j <= r.value
    ensures r.None? ==> forall j :: pos <= j < |s| && s[j] == ']' ==> !NoNewline(s, k, j)
  {
    if pos == |s| || s[pos] == '\n' then None
    else match LastClose(s, k, pos + 1)
      case Some(j) => Some(j)
      case None => if s[pos] == ']' then Some(pos) else None
  }

  /** `re.search` from index `from`: the leftmost start at which the pattern
      matches and, there, the longest match. */
  function SearchFrom(s: string, from: nat): (r: Option<Span>)
    decreases |s| - from
    ensures r.Some? ==> from <= r.value.start && IsMatch(s, r.value.start, r.value.close)
    ensures r.Some? ==> forall i: nat, j: nat :: from <= i < r.value.start ==> !IsMatch(s, i, j)
    ensures r.Some? ==> forall j: nat :: IsMatch(s, r.value.start, j) ==> j <= r.value.close
    ensures r.None? ==> forall i: nat, j: nat :: from <= i ==> !IsMatch(s, i, j)
  {
    if from + |Opening| > |s| then None
    else if OccursAt(s, Opening, from) then
      var k := from + |Opening|;
      match LastClose(s, k, k)
      case Some(j) => Some(Span(from, j))
      case None => SearchFrom(s, from + 1)
    else SearchFrom(s, from + 1)
  }

  /** What run does with the reply. */
  datatype Classification = Dispatch(mentions: seq<string>) | Verbatim(reply: string)

  /** `[m.strip() for m in capture.split(",")]`. */
  function ExtractMentions(capture: string): (r: seq<string>)
    ensures |r| == multiset(capture)[','] + 1
    ensures forall k :: 0 <= k < |r| ==> Trimmed(r[k])
    ensures |r| == |Split(capture, ',')| && forall k :: 0 <= k < |r| ==> r[k] == Strip(Split(capture, ',')[k])
  {
    var pieces := Split(capture, ',');
    SplitCount(capture, ',');
    seq(|pieces|, k requires 0 <= k < |pieces| => Strip(pieces[k]))
  }

  /** agent.py's decision: dispatch exactly when the command name occurs and
      the pattern matches; otherwise hand the reply back unchanged. */
  function Classify(content: string): (r: Classification)
    ensures r.Dispatch? <==> Contains(content, CommandName) && SearchFrom(content, 0).Some?
    ensures r.Verbatim? ==> r.reply == content
    ensures r.Dispatch? ==> r.mentions != [] && forall k :: 0 <= k < |r.mentions| ==> Trimmed(r.mentions[k])
    ensures r.Dispatch? ==> var m := SearchFrom(content, 0).value;
      r.mentions == ExtractMentions(content[m.start + |Opening|..m.close])
  {
    if !Contains(content, CommandName) then Verbatim(content)
    else match SearchFrom(content, 0)
      case None => Verbatim(content)
      case Some(m) => Dispatch(ExtractMentions(content[m.start + |Opening|..m.close]))
  }

  /** The pieces of `", ".join(xs)` when split on `,`: the first element, then
      each further element with the space of the separator in front. */
  function Padded(xs: seq<string>): (r: seq<string>)
    requires xs != []
  {
    [xs[0]] + seq(|xs| - 1, k requires 0 <= k < |xs| - 1 => " " + xs[k + 1])
  }

  lemma JoinPrefixed(p: string, a: string, tail: seq<string>, sep: string)
    ensures Join([p + a] + tail, sep) == p + Join([a] + tail, sep)
  {
    if tail != [] {
      assert ([p + a] + tail)[1..] == tail;
      assert ([a] + tail)[1..] == tail;
    }
  }

  /** `", ".join(xs)` is `",".join(Padded(xs))`. */
  lemma {:induction false} JoinCommaSpace(xs: seq<string>)
    requires xs != []
    ensures Join(xs, ", ") == Join(Padded(xs), ",")
  {
    if |xs| > 1 {
      var rest := xs[1..];
      JoinCommaSpace(rest);
      var tail := Padded(rest)[1..];
      assert Padded(rest) == [rest[0]] + tail;
      assert Padded(xs)[1..] == [" " + rest[0]] + tail;
      JoinPrefixed(" ", rest[0], tail, ",");
      assert Join(Padded(xs), ",") == xs[0] + "," + Join(Padded(xs)[1..], ",");
    }
  }

  /** Each padded piece is comma-free and strips back to its element. */
  lemma PaddedPieces(xs: seq<string>)
    requires xs != []
    requires forall k :: 0 <= k < |xs| ==> ',' !in xs[k] && Trimmed(xs[k])
    ensures |Padded(xs)| == |xs|
    ensures forall k :: 0 <= k < |xs| ==> ',' !in Padded(xs)[k] && Strip(Padded(xs)[k]) == xs[k]
  {
    var p := Padded(xs);
    forall k | 0 <= k < |xs| ensures ',' !in p[k] && Strip(p[k]) == xs[k] {
      if k == 0 {
        StripTrimmed(xs[0]);
      } else {
        assert p[k] == " " + xs[k];
        StripSpaced(xs[k]);
      }
    }
  }

  /** Splitting `", ".join(xs)` on `,` gives the padded pieces back. */
  lemma SplitJoinedList(xs: seq<string>)
    requires xs != []
    requires forall k :: 0 <= k < |xs| ==> ',' !in xs[k] && Trimmed(xs[k])
    ensures Split(Join(xs, ", "), ',') == Padded(xs)
  {
    PaddedPieces(xs);
    JoinCommaSpace(xs);
    SplitJoin(Padded(xs), ',');
  }

  /** Extraction undoes `", ".join`: the slot round trip for elements that
      hold no comma and are already stripped. */
  lemma ExtractJoined(xs: seq<string>)
    requires xs != []
    requires forall k :: 0 <= k < |xs| ==> ',' !in xs[k] && Trimmed(xs[k])
    ensures ExtractMentions(Join(xs, ", ")) == xs
  {
    SplitJoinedList(xs);
    ExtractPadded(Join(xs, ", "), xs);
  }

  /** A capture whose pieces are the padded elements extracts to the elements. */
  lemma ExtractPadded(capture: string, xs: seq<string>)
    requires xs != []
    requires forall k :: 0 <= k < |xs| ==> ',' !in xs[k] && Trimmed(xs[k])
    requires Split(capture, ',') == Padded(xs)
    ensures ExtractMentions(capture) == xs
  {
    var p := Padded(xs);
    PaddedPieces(xs);
    var r := ExtractMentions(capture);
    assert |r| == |xs|;
    forall k | 0 <= k < |xs| ensures r[k] == xs[k] {
      assert r[k] == Strip(p[k]);
    }
  }

  lemma NoNewlineInJoin(xs: seq<string>, sep: string)
    requires '\n' !in sep
    requires forall k :: 0 <= k < |xs| ==> '\n' !in xs[k]
    ensures '\n' !in Join(xs, sep)
  {
    if |xs| > 1 {
      NoNewlineInJoin(xs[1..], sep);
    }
  }

  /** Only index 14 of the opening is `[`, so an occurrence of the opening
      cannot begin inside another one. */
  lemma OpeningBracketOnlyAtEnd(i: nat)
    requires i < |Opening| - 1
    ensures Opening[i] != '['
  {
  }

  /** The round trip of the documented reply format: writing a non-empty list
      as `user_mentions=[` + `", ".join(xs)` + `]` and classifying the reply
      dispatches exactly that list. The elements must be free of newlines and
      commas and already stripped; no `user_mentions=[` may come earlier and
      no `]` later on the same line. */
  lemma {:induction false} ClassifyRoundTrip(pre: string, xs: seq<string>, post: string)
    requires Contains(pre + Opening + Join(xs, ", ") + "]" + post, CommandName)
    requires !Contains(pre, Opening)
    requires xs != []
    requires forall k :: 0 <= k < |xs| ==> '\n' !in xs[k] && ',' !in xs[k] && Trimmed(xs[k])
    requires forall m :: 0 <= m < |post| && post[m] == ']' ==> '\n' in post[..m]
    ensures Classify(pre + Opening + Join(xs, ", ") + "]" + post) == Dispatch(xs)
  {
    var joined := Join(xs, ", ");
    var s := pre + Opening + joined + "]" + post;
    NoNewlineInJoin(xs, ", ");
    WrittenListMatches(pre, joined, post);
    var m := SearchFrom(s, 0).value;
    NoOpeningBefore(pre, joined, post);
    assert m.start == |pre|;
    assert s[|pre| + |Opening|..m.close] == joined;
    ExtractJoined(xs);
  }

  /** Where the written list is, the pattern matches, and its greedy end is
      the `]` written right after the list. */
  lemma WrittenListMatches(pre: string, joined: string, post: string)
    requires '\n' !in joined
    requires forall m :: 0 <= m < |post| && post[m] == ']' ==> '\n' in post[..m]
    ensures var s := pre + Opening + joined + "]" + post;
      var c := |pre| + |Opening| + |joined|;
      IsMatch(s, |pre|, c) && s[|pre| + |Opening|..c] == joined &&
      forall j: nat :: IsMatch(s, |pre|, j) ==> j <= c
  {
    var s := pre + Opening + joined + "]" + post;
    var k := |pre| + |Opening|;
    var c := k + |joined|;
    assert s[|pre|..k] == Opening;
    assert s[k..c] == joined;
    forall m | k <= m < c ensures s[m] != '\n' {
      assert s[m] == joined[m - k];
    }
    forall j: nat | c < j < |s| && s[j] == ']' ensures !NoNewline(s, k, j) {
      var n := j - c - 1;
      assert post[n] == s[j];
      assert '\n' in post[..n];
      var w :| 0 <= w < n && post[..n][w] == '\n';
      assert s[c + 1 + w] == '\n';
    }
  }

  /** No occurrence of the opening starts inside `pre` when `pre` does not
      contain one and the opening follows it. */
  lemma NoOpeningBefore(pre: string, joined: string, post: string)
    requires !Contains(pre, Opening)
    ensures forall i :: 0 <= i < |pre| ==> !OccursAt(pre + Opening + joined + "]" + post, Opening, i)
  {
    var s := pre + Opening + joined + "]" + post;
    forall i | 0 <= i < |pre| ensures !OccursAt(s, Opening, i) {
      if i + |Opening| <= |pre| {
        assert s[i..i + |Opening|] == pre[i..i + |Opening|];
        assert !OccursAt(pre, Opening, i);
      } else if i + |Opening| <= |s| {
        var q := i + |Opening| - 1;
        OpeningBracketOnlyAtEnd(q - |pre|);
        assert s[q] == Opening[q - |pre|] != '[';
        assert s[i..i + |Opening|][|Opening| - 1] != Opening[|Opening| - 1];
      }
    }
  }

  /** The example from the prompt dispatches the two mentions. */
  lemma DocumentedExample()
    ensures Classify("create_group_chat(user_mentions=[@user1, @user2])") == Dispatch(["@user1", "@user2"])
  {
    var pre := "create_group_chat(";
    var xs := ["@user1", "@user2"];
    ExampleWritten();
    ExamplePrefix();
    assert OccursAt("create_group_chat(user_mentions=[@user1, @user2])", CommandName, 0);
    assert Contains(pre + Opening + Join(xs, ", ") + "]" + ")", CommandName);
    assert !Contains(pre, Opening);
    forall k | 0 <= k < |xs| ensures '\n' !in xs[k] && ',' !in xs[k] && Trimmed(xs[k]) {
      assert xs[k] == "@user" + [if k == 0 then '1' else '2'];
    }
    ClassifyRoundTrip(pre, xs, ")");
  }

  lemma ExampleWritten()
    ensures "create_group_chat(" + Opening + Join(["@user1", "@user2"], ", ") + "]" + ")"
         == "create_group_chat(user_mentions=[@user1, @user2])"
  {
    var xs := ["@user1", "@user2"];
    assert xs[1..] == ["@user2"];
    assert Join(xs, ", ") == "@user1" + ", " + "@user2";
  }

  lemma ExamplePrefix()
    ensures !Contains("create_group_chat(", Opening)
  {
    var pre := "create_group_chat(";
    forall i | 0 <= i <= |pre| - |Opening| ensures !OccursAt(pre, Opening, i) {
      assert pre[i] != Opening[0];
    }
  }

  /** The tail of MistralAgent.run: classify the reply and either call
      create_group_chat once with the extracted mentions or return the reply. */
  method Run(agent: DiscordAgent, content: string, fault: Fault) returns (reply: string)
    modifies agent
    ensures Classify(content).Verbatim? ==> reply == content && agent.trace == old(agent.trace)
    ensures Classify(content).Dispatch? ==>
      reply == agent.GroupChatReply(Classify(content).mentions, fault) &&
      agent.trace == old(agent.trace) + agent.GroupChatEffects(Classify(content).mentions, fault)
  {
    if Contains(content, CommandName) {
      var found := SearchFrom(content, 0);
      if found.Some? {
        var mentions := ExtractMentions(content[found.value.start + |Opening|..found.value.close]);
        reply := agent.CreateGroupChat(mentions, fault);
        return;
      }
    }
    reply := content;
  }
}
