/**
 The parser as it runs: accumulators updated line by line. Its methods are proved against
 the functions of `SessionParser`. An emitted card turn and the table name the same card
 by its number in `cards`, so an answer written through the table shows in the turn.
 */
module ParserMachine {
  import opened Collections
  import opened Strings
  import opened InteractiveItems
  import opened Transcript
  import P = SessionParser

  class Parser {
    var turns: seq<P.Turn>
    var parts: seq<string>
    var textUuid: Option<string>
    var textTime: Option<string>
    var cards: seq<Item>
    var pending: seq<nat>
    var byId: map<string, nat>

    function State(): P.State
      reads this
    {
      P.State(turns, parts, textUuid, textTime, cards, pending, byId)
    }

    constructor ()
      ensures State() == P.START
    {
      turns, parts, textUuid, textTime, cards, pending, byId := [], [], None, None, [], [], map[];
    }

    method FlushText()
      modifies this
      ensures State() == P.FlushText(old(State()))
    {
      if parts != [] {
        var text := P.Render(parts);
        if text != "" {
          turns := turns + [P.TextTurn(text, textUuid, textTime)];
        }
        parts, textUuid, textTime := [], None, None;
      }
    }

    method FlushAll()
      modifies this
      ensures State() == P.FlushAll(old(State()))
    {
      FlushText();
      if pending != [] {
        turns, pending := turns + [P.CardTurn(pending)], [];
      }
    }

    method Emit(turn: Option<P.Turn>)
      modifies this
      ensures State() == P.Emit(old(State()), turn)
    {
      if turn.Some? {
        FlushAll();
        turns := turns + [turn.value];
      }
    }

    method AddToolUse(b: AgentBlock, time: Option<string>)
      requires b.ToolUse?
      modifies this
      ensures State() == P.FeedBlock(old(State()), b, None, time)
    {
      FlushText();
      if P.Interactive(b.tool) {
        pending, byId := pending + [|cards|], byId[b.id := |cards|];
        cards := cards + [P.NewCard(b)];
      } else if !b.tool.SearchTool? {
        turns := turns + [P.ToolTurn(b.tool, b.id, time)];
      }
    }

    method FeedBlocks(bs: seq<AgentBlock>, uuid: Option<string>, time: Option<string>)
      modifies this
      ensures State() == P.FeedBlocks(old(State()), bs, uuid, time)
    {
      ghost var st := State();
      for i := 0 to |bs|
        invariant State() == P.FeedBlocks(st, bs[..i], uuid, time)
      {
        assert bs[..i + 1][..i] == bs[..i];
        match bs[i]
        case AgentText(text) =>
          if P.ShownText(text) {
            parts := parts + [text];
            if textUuid.None? && Truthy(uuid) { textUuid := uuid; }
            if textTime.None? && Truthy(time) { textTime := time; }
          }
        case ToolUse(_, _, _, _, _) => AddToolUse(bs[i], time);
        case OtherAgentBlock =>
      }
      assert bs[..|bs|] == bs;
    }

    /** `item in pending`, then `pending.remove(item)`: both compare by value. */
    method RemovePending(item: Item) returns (removed: bool)
      requires P.Sound(State())
      modifies this`pending
      ensures var found := P.FirstEqual(cards, old(pending), item);
              removed == found.Some?
              && pending == if found.Some? then old(pending)[..found.value] + old(pending)[found.value + 1..]
                            else old(pending)
    {
      removed := false;
      var i := 0;
      while i < |pending|
        invariant 0 <= i <= |pending| && pending == old(pending)
        invariant forall j :: 0 <= j < i ==> cards[pending[j]] != item
      {
        if cards[pending[i]] == item {
          FirstIs(cards, pending, item, i);
          pending := pending[..i] + pending[i + 1..];
          return true;
        }
        i := i + 1;
      }
    }

    method FeedResult(b: UserBlock, time: Option<string>)
      requires P.Sound(State())
      modifies this
      ensures State() == P.FeedResult(old(State()), b, time)
    {
      if b.ToolResult? && b.toolUseId in byId {
        var answer := P.ResultOf(b.result);
        var n := byId[b.toolUseId];
        var item := cards[n];
        if P.RejectedByValidation(b.isError, answer) {
          byId := byId - {b.toolUseId};
          var removed := RemovePending(item);
          if removed {
            FlushText();
            turns := turns + [P.RejectedTurn(item.kind, b.toolUseId, time)];
          }
        } else {
          cards := cards[n := DeriveSelected(item.(answer := Some(answer)))];
          FlushAll();
        }
      }
    }

    method FeedResults(bs: seq<UserBlock>, time: Option<string>)
      requires P.Sound(State())
      modifies this
      ensures State() == P.FeedResults(old(State()), bs, time)
    {
      ghost var st := State();
      for i := 0 to |bs|
        invariant State() == P.FeedResults(st, bs[..i], time)
      {
        assert bs[..i + 1][..i] == bs[..i];
        FeedResult(bs[i], time);
      }
      assert bs[..|bs|] == bs;
    }

    method FeedUser(isMeta: bool, content: UserContent, uuid: Option<string>, time: Option<string>)
      requires P.Sound(State())
      modifies this
      ensures State() == P.FeedUser(old(State()), isMeta, content, uuid, time)
    {
      if isMeta { return; }
      match content
      case NoContent =>
      case Text(text) => Emit(P.UserTurnOf(text, uuid, time));
      case BlockList(bs) =>
        if P.HasToolResult(bs) {
          FeedResults(bs, time);
        } else {
          Emit(P.UserTurnOf(Strip(Join(P.UserTexts(bs), "\n")), uuid, time));
        }
    }

    method Feed(line: Line)
      requires P.Sound(State())
      modifies this
      ensures State() == P.Feed(old(State()), line)
    {
      if line.Unparsed? { return; }
      var e := line.entry;
      match e.body
      case UserBody(isMeta, content) => FeedUser(isMeta, content, e.uuid, e.timestamp);
      case AgentBody(subagent, synthetic, rateLimited, bs) =>
        if !subagent && !synthetic {
          if rateLimited {
            Emit(Some(P.SystemTurn(P.RateLimitText(bs), P.RateLimit, P.Own(e.uuid), e.timestamp)));
          } else {
            FeedBlocks(bs, e.uuid, e.timestamp);
          }
        }
      case SystemBody(subtype, text) =>
        if !subtype.TurnDuration? {
          FlushAll();
          var turn := P.SystemTurnOf(subtype, text, e.uuid, e.timestamp);
          if turn.Some? { turns := turns + [turn.value]; }
        }
      case OtherBody(_) =>
    }
  }

  lemma {:induction false} FirstIs(cards: seq<Item>, pending: seq<nat>, item: Item, i: nat)
    requires forall j :: 0 <= j < |pending| ==> pending[j] < |cards|
    requires i < |pending| && cards[pending[i]] == item
    requires forall j :: 0 <= j < i ==> cards[pending[j]] != item
    ensures P.FirstEqual(cards, pending, item) == Some(i)
  {
    var found := P.FirstEqual(cards, pending, item);
    assert found.Some?;
  }

  /** Drops later user turns whose id was seen before. */
  method Deduplicate(turns: seq<P.Turn>) returns (kept: seq<P.Turn>)
    ensures kept == P.Dedup(turns)
  {
    kept := [];
    var seen: set<string> := {};
    for i := 0 to |turns|
      invariant kept == P.Dedup(turns[..i]) && seen == P.UserUuids(turns[..i])
    {
      ghost var init := turns[..i + 1][..i];
      assert init == turns[..i];
      assert turns[..i + 1] == init + [turns[i]];
      var turn := turns[i];
      if turn.UserTurn? && Truthy(turn.uuid) {
        assert P.UserUuids(turns[..i + 1]) == P.UserUuids(init) + {turn.uuid.value} by { P.UuidAdded(init, turn); }
        if turn.uuid.value in seen {
          assert kept == P.Dedup(turns[..i + 1]);
          continue;
        }
        seen := seen + {turn.uuid.value};
      } else {
        P.UuidAdded(init, turn);
      }
      kept := kept + [turn];
    }
    assert turns[..|turns|] == turns;
  }

  /** All lines, the final flush, and the removal of repeated user turns. */
  method ParseLines(lines: seq<Line>) returns (r: P.Result)
    ensures r == P.Parse(lines)
  {
    var p := new Parser();
    for i := 0 to |lines|
      invariant p.State() == P.FeedAll(P.START, lines[..i])
    {
      assert lines[..i + 1][..i] == lines[..i];
      p.Feed(lines[i]);
    }
    assert lines[..|lines|] == lines;
    p.FlushAll();
    var kept := Deduplicate(p.turns);
    r := P.Result(kept, p.cards);
  }
}
