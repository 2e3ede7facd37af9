/**
  The ids under which tool calls of an external agent are shown.

  A call is announced by an update, by a request for permission, or by both in either order.
  The one that comes first decides the id: the agent's own id, or one made from a digest.
  The digest, 24 hexadecimal digits, is a parameter; the theorems ask that it tells the ids
  that occur apart and that none of these looks like an id made from a digest of them.
  */
module ToolCallIds {
  import opened Options
  import opened Whitespace

  datatype Event = ToolCall(raw: string) | Permission(raw: string) | ToolResult(raw: string)

  /** A call or a result as it was published: which external call it is about, and its id. */
  datatype Shown = Shown(external: string, id: string)

  datatype State = State(ids: map<string, string>, published: set<string>, calls: seq<Shown>, results: seq<Shown>)

  const EMPTY := State(map[], {}, [], [])

  function HostId(digest: string -> string, external: string): string {
    "acp-perm-" + digest(external)
  }

  // ---------- One event ----------

  function Bound(digest: string -> string, s: State, external: string): string {
    if external in s.ids then s.ids[external]
    else if external != "" && external in s.published then external
    else HostId(digest, external)
  }

  function Resolved(s: State, external: string): string {
    if Strip(external) in s.ids then s.ids[Strip(external)] else external
  }

  /** Publishes a call under an id unless something has been published under it. */
  function Publish(s: State, external: string, id: string): State {
    if Strip(id) in s.published then s
    else s.(published := s.published + {Strip(id)}, calls := s.calls + [Shown(external, id)])
  }

  /** `tool_call_id or external_tool_call_id` */
  function IdOr(id: string, external: string): string {
    if id != "" then id else external
  }

  function Step(digest: string -> string, s: State, e: Event): State {
    var x := Strip(e.raw);
    match e
    case ToolCall(_) => Publish(s, x, IdOr(Resolved(s, x), x))
    case Permission(_) => Publish(s.(ids := s.ids[x := Bound(digest, s, x)]), x, Bound(digest, s, x))
    case ToolResult(_) => s.(results := s.results + [Shown(x, IdOr(Resolved(s, x), x))])
  }

  function Run(digest: string -> string, es: seq<Event>): State {
    if es == [] then EMPTY else Step(digest, Run(digest, es[..|es| - 1]), es[|es| - 1])
  }

  // ---------- The prompt state ----------

  class ActivePromptState {
    var acpToolCallIds: map<string, string>
    var publishedToolCallIds: set<string>
    ghost var calls: seq<Shown>
    ghost var results: seq<Shown>

    ghost function Contents(): State
      reads this
    {
      State(acpToolCallIds, publishedToolCallIds, calls, results)
    }

    constructor ()
      ensures Contents() == EMPTY
    {
      acpToolCallIds, publishedToolCallIds, calls, results := map[], {}, [], [];
    }

    method BindAcpToolCallId(digest: string -> string, external: string) returns (id: string)
      modifies `acpToolCallIds
      ensures id == Bound(digest, old(Contents()), Strip(external))
      ensures acpToolCallIds == old(acpToolCallIds)[Strip(external) := id]
    {
      var normalized := Strip(external);
      if normalized in acpToolCallIds {
        assert acpToolCallIds == acpToolCallIds[normalized := acpToolCallIds[normalized]];
        return acpToolCallIds[normalized];
      }
      if normalized != "" && normalized in publishedToolCallIds {
        acpToolCallIds := acpToolCallIds[normalized := normalized];
        return normalized;
      }
      id := "acp-perm-" + digest(normalized);
      acpToolCallIds := acpToolCallIds[normalized := id];
    }

    method ResolveHostToolCallId(external: string) returns (id: string)
      ensures id == Resolved(Contents(), external)
    {
      id := if Strip(external) in acpToolCallIds then acpToolCallIds[Strip(external)] else external;
    }

    method MarkToolCallPublished(id: string) returns (first: bool)
      modifies `publishedToolCallIds
      ensures first == (Strip(id) !in old(publishedToolCallIds))
      ensures publishedToolCallIds == old(publishedToolCallIds) + {Strip(id)}
    {
      if Strip(id) in publishedToolCallIds {
        return false;
      }
      publishedToolCallIds := publishedToolCallIds + {Strip(id)};
      return true;
    }

    /** `_publish_external_tool_call`; `sent` says whether the event goes out. */
    method PublishExternalToolCall(external: string, id: string) returns (sent: bool)
      modifies `publishedToolCallIds, `calls
      ensures Contents() == Publish(old(Contents()), external, id) && sent == (|calls| > |old(calls)|)
    {
      sent := MarkToolCallPublished(id);
      if sent {
        calls := calls + [Shown(external, id)];
      }
    }

    method HandleToolCall(raw: string) returns (sent: bool)
      modifies `publishedToolCallIds, `calls
      ensures forall digest :: Contents() == Step(digest, old(Contents()), ToolCall(raw))
    {
      var external := Strip(raw);
      var id := ResolveHostToolCallId(external);
      StripTrims(raw);
      sent := PublishExternalToolCall(external, if id != "" then id else external);
    }

    method HandleToolResult(raw: string) returns (id: string)
      modifies `results
      ensures forall digest :: Contents() == Step(digest, old(Contents()), ToolResult(raw))
      ensures results == old(results) + [Shown(Strip(raw), id)]
    {
      var external := Strip(raw);
      id := ResolveHostToolCallId(external);
      if id == "" {
        id := external;
      }
      results := results + [Shown(external, id)];
    }

    method HandleRequestPermission(digest: string -> string, raw: string) returns (id: string, sent: bool)
      modifies this
      ensures Contents() == Step(digest, old(Contents()), Permission(raw))
      ensures id == Bound(digest, old(Contents()), Strip(raw))
    {
      id := BindAcpToolCallId(digest, raw);
      sent := PublishExternalToolCall(Strip(raw), id);
    }
  }

  // ---------- What is promised ----------

  /** 24 hexadecimal digits. */
  predicate Hex(s: string) {
    |s| == 24 && forall i :: 0 <= i < |s| ==> '0' <= s[i] <= '9' || 'a' <= s[i] <= 'f'
  }

  /** The digest has no collision among these ids, and none of them is an id made from another. */
  ghost predicate GoodDigest(digest: string -> string, ids: set<string>) {
    && (forall x :: x in ids ==> Strip(x) == x && Hex(digest(x)))
    && (forall x, y :: x in ids && y in ids && x != y ==> digest(x) != digest(y))
    && (forall x, y :: x in ids && y in ids ==> x != HostId(digest, y))
  }

  /** The events are about these calls. */
  predicate About(es: seq<Event>, ids: set<string>) {
    forall k :: 0 <= k < |es| ==> Strip(es[k].raw) in ids
  }

  lemma HostIdIsPlain(digest: string -> string, x: string)
    requires Hex(digest(x))
    ensures Strip(HostId(digest, x)) == HostId(digest, x) != ""
  {
    var id := HostId(digest, x);
    assert id[0] == 'a' && id[|id| - 1] == digest(x)[|digest(x)| - 1];
  }

  lemma HostIdsDiffer(digest: string -> string, x: string, y: string)
    requires digest(x) != digest(y)
    ensures HostId(digest, x) != HostId(digest, y)
  {
    assert HostId(digest, x)[9..] == digest(x);
    assert HostId(digest, y)[9..] == digest(y);
  }

  /** The ids under which calls of an external id were published. */
  function CallsOf(calls: seq<Shown>, x: string): seq<string> {
    if calls == [] then []
    else CallsOf(calls[..|calls| - 1], x) + (if calls[|calls| - 1].external == x then [calls[|calls| - 1].id] else [])
  }

  lemma CallsOfGrows(calls: seq<Shown>, c: Shown, x: string)
    ensures CallsOf(calls + [c], x) == CallsOf(calls, x) + (if c.external == x then [c.id] else [])
  {
    assert (calls + [c])[..|calls|] == calls;
  }

  /** Which kind of announcement of a call came first, and whether a request for permission came at all. */
  datatype Mention = Never | ByUpdate | ByPermission | ByUpdateThenPermission

  function Mentioned(es: seq<Event>, x: string): Mention {
    if es == [] then Never
    else
      var m, e := Mentioned(es[..|es| - 1], x), es[|es| - 1];
      if Strip(e.raw) != x || e.ToolResult? then m
      else match m
        case Never => if e.ToolCall? then ByUpdate else ByPermission
        case ByUpdate => if e.ToolCall? then ByUpdate else ByUpdateThenPermission
        case ByPermission => m
        case ByUpdateThenPermission => m
  }

  /** The id of a call, by what announced it first. */
  function ShownAs(digest: string -> string, es: seq<Event>, x: string): string {
    if Mentioned(es, x).ByPermission? then HostId(digest, x) else x
  }

  /** Where a call that was mentioned so far stands. */
  ghost predicate Tracks(digest: string -> string, s: State, x: string, m: Mention) {
    match m
    case Never => x !in s.ids && x !in s.published && HostId(digest, x) !in s.published && CallsOf(s.calls, x) == []
    case ByUpdate => x !in s.ids && x in s.published && HostId(digest, x) !in s.published && CallsOf(s.calls, x) == [x]
    case ByPermission =>
      && x in s.ids && s.ids[x] == HostId(digest, x)
      && HostId(digest, x) in s.published && x !in s.published && CallsOf(s.calls, x) == [HostId(digest, x)]
    case ByUpdateThenPermission =>
      && x in s.ids && x in s.published
      && if x != ""
         then s.ids[x] == x && HostId(digest, x) !in s.published && CallsOf(s.calls, x) == [x]
         else s.ids[x] == HostId(digest, x) && HostId(digest, x) in s.published
              && CallsOf(s.calls, x) == [x, HostId(digest, x)]
  }

  /** An event about the call itself. */
  lemma OwnStep(digest: string -> string, s: State, e: Event, x: string, m: Mention)
    requires Tracks(digest, s, x, m) && GoodDigest(digest, {x}) && Strip(e.raw) == x && !e.ToolResult?
    ensures Tracks(digest, Step(digest, s, e), x,
      match m
      case Never => if e.ToolCall? then ByUpdate else ByPermission
      case ByUpdate => if e.ToolCall? then ByUpdate else ByUpdateThenPermission
      case ByPermission => m
      case ByUpdateThenPermission => m)
  {
    HostIdIsPlain(digest, x);
    CallsOfGrows(s.calls, Shown(x, x), x);
    CallsOfGrows(s.calls, Shown(x, HostId(digest, x)), x);
  }

  /** An event about another call. */
  lemma OtherStep(digest: string -> string, s: State, e: Event, x: string, y: string, m: Mention, n: Mention)
    requires Tracks(digest, s, x, m) && Tracks(digest, s, y, n) && GoodDigest(digest, {x, y})
    requires Strip(e.raw) == y != x
    ensures Tracks(digest, Step(digest, s, e), x, m)
  {
    HostIdIsPlain(digest, y);
    HostIdsDiffer(digest, x, y);
    CallsOfGrows(s.calls, Shown(y, y), x);
    CallsOfGrows(s.calls, Shown(y, HostId(digest, y)), x);
  }

  lemma AboutSplits(es: seq<Event>, ids: set<string>)
    requires About(es, ids) && es != []
    ensures About(es[..|es| - 1], ids) && Strip(es[|es| - 1].raw) in ids
  {}

  lemma GoodForTwo(digest: string -> string, ids: set<string>, x: string, y: string)
    requires GoodDigest(digest, ids) && x in ids && y in ids
    ensures GoodDigest(digest, {x, y}) && GoodDigest(digest, {x})
  {}

  lemma {:induction false} TracksAlways(digest: string -> string, ids: set<string>, es: seq<Event>, x: string)
    requires GoodDigest(digest, ids) && About(es, ids) && x in ids
    ensures Tracks(digest, Run(digest, es), x, Mentioned(es, x))
    decreases |es|
  {
    if es != [] {
      var before, e := es[..|es| - 1], es[|es| - 1];
      var y := Strip(e.raw);
      AboutSplits(es, ids);
      GoodForTwo(digest, ids, x, y);
      TracksAlways(digest, ids, before, x);
      if e.ToolResult? {
      } else if y == x {
        OwnStep(digest, Run(digest, before), e, x, Mentioned(before, x));
      } else {
        TracksAlways(digest, ids, before, y);
        OtherStep(digest, Run(digest, before), e, x, y, Mentioned(before, x), Mentioned(before, y));
      }
    }
  }

  /** Every announced call with an id is published exactly once, under the id that its first
      announcement decides. */
  lemma PublishedOnce(digest: string -> string, ids: set<string>, es: seq<Event>, x: string)
    requires GoodDigest(digest, ids) && About(es, ids) && x in ids && x != ""
    ensures CallsOf(Run(digest, es).calls, x) == if Mentioned(es, x).Never? then [] else [ShownAs(digest, es, x)]
  {
    TracksAlways(digest, ids, es, x);
  }

  /** The id never changes, whatever comes later. */
  lemma {:induction false} IdStays(digest: string -> string, es: seq<Event>, more: seq<Event>, x: string)
    requires !Mentioned(es, x).Never?
    ensures !Mentioned(es + more, x).Never? && ShownAs(digest, es + more, x) == ShownAs(digest, es, x)
    decreases |more|
  {
    if more == [] {
      assert es + more == es;
    } else {
      IdStays(digest, es, more[..|more| - 1], x);
      assert (es + more)[..|es + more| - 1] == es + more[..|more| - 1];
    }
  }

  /** Every result that comes after its call was announced carries the id of that call. */
  lemma ResultsCarryTheId(digest: string -> string, ids: set<string>, es: seq<Event>, raw: string)
    requires GoodDigest(digest, ids) && About(es, ids) && Strip(raw) in ids
    requires Strip(raw) != "" && !Mentioned(es, Strip(raw)).Never?
    ensures var s, x := Run(digest, es), Strip(raw);
      Step(digest, s, ToolResult(raw)).results == s.results + [Shown(x, ShownAs(digest, es, x))]
  {
    TracksAlways(digest, ids, es, Strip(raw));
    HostIdIsPlain(digest, Strip(raw));
  }

  /** For calls without an id that is not so: they are published at most once exactly when no
      request for permission follows an update. */
  lemma BlankIdsOnceIff(digest: string -> string, ids: set<string>, es: seq<Event>)
    requires GoodDigest(digest, ids) && About(es, ids) && "" in ids
    ensures |CallsOf(Run(digest, es).calls, "")| <= 1 <==> !Mentioned(es, "").ByUpdateThenPermission?
  {
    TracksAlways(digest, ids, es, "");
  }

  /** An update without an id and a request for permission with a blank one: two publications. */
  lemma BlankCallShownTwice(digest: string -> string)
    requires Hex(digest(""))
    ensures Strip(" ") == ""
    ensures CallsOf(Run(digest, [ToolCall(""), Permission(" ")]).calls, "") == ["", HostId(digest, "")]
  {
    var es := [ToolCall(""), Permission(" ")];
    assert " "[1..] == "" && Strip(" ") == Strip("");
    assert es[..1] == [ToolCall("")] && es[..1][..0] == [];
    assert HostId(digest, "")[0] == 'a';
    assert Mentioned(es[..1], "") == ByUpdate;
    assert es[|es| - 1] == Permission(" ") && es[..|es| - 1] == es[..1];
    assert Mentioned(es, "") == ByUpdateThenPermission;
    TracksAlways(digest, {""}, es, "");
  }
}
