/**
 * One round of Blackjack as a pure state machine over a table (the undealt
 * deck and the two hands). The player's turn consumes already-read commands,
 * the dealer then draws while below 17, and the round is settled by
 * comparing hand values. Blackjack.Game.Play is proved to behave exactly as
 * PlayRound says.
 */
module Rules {
  import opened Cards
  import opened Scoring

  /** A line the player typed, upper-cased: "H", "S", or anything else. */
  datatype Command = Hit | Stand | Other

  /** The result of a finished round. */
  datatype Outcome = PlayerBust | DealerBust | PlayerWin | DealerWin | Push

  /**
   * How a round stops: settled with an outcome; or aborted because the input
   * ended before the player stood or busted, or because a draw met an empty deck.
   */
  datatype RoundEnd = Settled(outcome: Outcome) | InputEnded | DeckEmpty

  /** The undealt deck, top card first, and the two hands in the order their cards arrived. */
  datatype Table = Table(deck: seq<Card>, player: seq<Card>, dealer: seq<Card>)

  /** How one party's turn stops. */
  datatype TurnEnd = Stood | Busted | NoInput | NoCard

  datatype Turn = Turn(status: TurnEnd, table: Table)

  datatype RoundResult = RoundResult(status: RoundEnd, table: Table)

  /** The top card moves to the player's hand. */
  function HitPlayer(t: Table): Table
    requires t.deck != []
  {
    t.(deck := t.deck[1..], player := t.player + [t.deck[0]])
  }

  /** The top card moves to the dealer's hand. */
  function HitDealer(t: Table): Table
    requires t.deck != []
  {
    t.(deck := t.deck[1..], dealer := t.dealer + [t.deck[0]])
  }

  /**
   * The player's turn: Hit draws one card and ends the turn as a bust when the
   * hand goes over 21; Stand ends the turn; any other command is ignored.
   */
  function PlayerTurn(t: Table, commands: seq<Command>): (r: Turn)
    ensures r.status == NoCard ==> r.table.deck == []
    ensures r.status == Busted ==> HandValue(r.table.player) > 21
    decreases |commands|
  {
    if commands == [] then Turn(NoInput, t)
    else match commands[0]
      case Stand => Turn(Stood, t)
      case Other => PlayerTurn(t, commands[1..])
      case Hit =>
        if t.deck == [] then Turn(NoCard, t)
        else if HandValue(HitPlayer(t).player) > 21 then Turn(Busted, HitPlayer(t))
        else PlayerTurn(HitPlayer(t), commands[1..])
  }

  /** The dealer's turn: draw while the hand is worth less than 17. */
  function DealerTurn(t: Table): (r: Turn)
    ensures r.status == NoCard ==> r.table.deck == []
    decreases 17 - HardTotal(t.dealer)
  {
    if HandValue(t.dealer) >= 17 then Turn(Stood, t)
    else if t.deck == [] then Turn(NoCard, t)
    else
      ValueBetweenHardAndRaw(t.dealer);
      AppendCard(t.dealer, t.deck[0]);
      DealerTurn(HitDealer(t))
  }

  /** The comparison that settles a round in which the player stood. */
  function Settle(playerValue: int, dealerValue: int): (o: Outcome)
    ensures o != PlayerBust
    ensures o == DealerBust <==> dealerValue > 21
    ensures o == PlayerWin <==> dealerValue <= 21 && playerValue > dealerValue
    ensures o == DealerWin <==> dealerValue <= 21 && playerValue < dealerValue
    ensures o == Push <==> dealerValue <= 21 && playerValue == dealerValue
  {
    if dealerValue > 21 then DealerBust
    else if playerValue > dealerValue then PlayerWin
    else if playerValue < dealerValue then DealerWin
    else Push
  }

  /** A whole round after the deal. */
  function PlayRound(t: Table, commands: seq<Command>): (r: RoundResult)
    ensures r.status == DeckEmpty ==> r.table.deck == []
    ensures r.status == Settled(PlayerBust) ==> HandValue(r.table.player) > 21
  {
    var p := PlayerTurn(t, commands);
    match p.status
    case Busted => RoundResult(Settled(PlayerBust), p.table)
    case NoInput => RoundResult(InputEnded, p.table)
    case NoCard => RoundResult(DeckEmpty, p.table)
    case Stood =>
      var d := DealerTurn(p.table);
      if d.status == NoCard then RoundResult(DeckEmpty, d.table)
      else RoundResult(Settled(Settle(HandValue(d.table.player), HandValue(d.table.dealer))), d.table)
  }

  // ---------------------------------------------------------------------------
  // One step at a time: the round after each command and each dealer draw

  lemma PlayerTurnStep(t: Table, commands: seq<Command>)
    requires commands != []
    ensures commands[0] == Stand ==> PlayerTurn(t, commands) == Turn(Stood, t)
    ensures commands[0] == Other ==> PlayerTurn(t, commands) == PlayerTurn(t, commands[1..])
    ensures commands[0] == Hit && t.deck == [] ==> PlayerTurn(t, commands) == Turn(NoCard, t)
    ensures commands[0] == Hit && t.deck != [] && HandValue(HitPlayer(t).player) > 21 ==>
      PlayerTurn(t, commands) == Turn(Busted, HitPlayer(t))
    ensures commands[0] == Hit && t.deck != [] && HandValue(HitPlayer(t).player) <= 21 ==>
      PlayerTurn(t, commands) == PlayerTurn(HitPlayer(t), commands[1..])
  {
  }

  lemma DealerTurnStep(t: Table)
    requires HandValue(t.dealer) < 17
    ensures t.deck == [] ==> DealerTurn(t) == Turn(NoCard, t)
    ensures t.deck != [] ==> DealerTurn(t) == DealerTurn(HitDealer(t))
  {
  }

  // ---------------------------------------------------------------------------
  // Where the cards go

  /**
   * From t to r the hands only grew, and the new cards are the top of t's deck
   * in order: first the player's new cards, then the dealer's.
   */
  ghost predicate DrawnFrom(t: Table, r: Table)
  {
    && |t.player| <= |r.player| && r.player[..|t.player|] == t.player
    && |t.dealer| <= |r.dealer| && r.dealer[..|t.dealer|] == t.dealer
    && t.deck == r.player[|t.player|..] + r.dealer[|t.dealer|..] + r.deck
  }

  /** A player's hit followed by draws from the top is a draw from the top. */
  lemma HitPlayerThen(t: Table, r: Table)
    requires t.deck != []
    requires DrawnFrom(HitPlayer(t), r) && r.dealer == t.dealer
    ensures DrawnFrom(t, r)
  {
    var h := HitPlayer(t);
    assert t.deck == [t.deck[0]] + h.deck;
    assert r.player[..|h.player|][..|t.player|] == t.player;
    assert r.player[|t.player|..] == [t.deck[0]] + r.player[|h.player|..];
  }

  /** A dealer's hit followed by draws from the top is a draw from the top. */
  lemma HitDealerThen(t: Table, r: Table)
    requires t.deck != []
    requires DrawnFrom(HitDealer(t), r) && r.player == t.player
    ensures DrawnFrom(t, r)
  {
    var h := HitDealer(t);
    assert t.deck == [t.deck[0]] + h.deck;
    assert r.dealer[..|h.dealer|][..|t.dealer|] == t.dealer;
    assert r.dealer[|t.dealer|..] == [t.deck[0]] + r.dealer[|h.dealer|..];
  }

  lemma {:induction false} PlayerTurnDrawsFromTop(t: Table, commands: seq<Command>)
    ensures DrawnFrom(t, PlayerTurn(t, commands).table)
    ensures PlayerTurn(t, commands).table.dealer == t.dealer
    decreases |commands|
  {
    var r := PlayerTurn(t, commands).table;
    if commands != [] && commands[0] == Hit && t.deck != [] {
      var h := HitPlayer(t);
      assert t.deck == [t.deck[0]] + h.deck;
      if HandValue(h.player) <= 21 {
        assert r == PlayerTurn(h, commands[1..]).table;
        PlayerTurnDrawsFromTop(h, commands[1..]);
        HitPlayerThen(t, r);
      } else {
        assert r == h;
      }
    } else if commands != [] && commands[0] == Other {
      assert r == PlayerTurn(t, commands[1..]).table;
      PlayerTurnDrawsFromTop(t, commands[1..]);
    }
  }

  lemma {:induction false} DealerTurnDrawsFromTop(t: Table)
    ensures DrawnFrom(t, DealerTurn(t).table)
    ensures DealerTurn(t).table.player == t.player
    decreases 17 - HardTotal(t.dealer)
  {
    var r := DealerTurn(t).table;
    if HandValue(t.dealer) < 17 && t.deck != [] {
      var h := HitDealer(t);
      assert t.deck == [t.deck[0]] + h.deck;
      DealerTurnStep(t);
      assert r == DealerTurn(h).table;
      ValueBetweenHardAndRaw(t.dealer);
      AppendCard(t.dealer, t.deck[0]);
      DealerTurnDrawsFromTop(h);
      HitDealerThen(t, r);
    }
  }

  /** A player's draws followed by a dealer's draws are draws from the top, the player's first. */
  lemma DrawnFromThen(t: Table, m: Table, r: Table)
    requires DrawnFrom(t, m) && m.dealer == t.dealer
    requires DrawnFrom(m, r) && r.player == m.player
    ensures DrawnFrom(t, r)
  {
    calc {
      t.deck;
      m.player[|t.player|..] + m.dealer[|t.dealer|..] + m.deck;
      { assert m.dealer[|t.dealer|..] == []; }
      r.player[|t.player|..] + (r.dealer[|m.dealer|..] + r.deck);
    }
  }

  /**
   * A round only moves cards from the top of the deck onto the ends of the
   * hands: all of the player's new cards come first, then all of the dealer's.
   */
  lemma PlayRoundDrawsFromTop(t: Table, commands: seq<Command>)
    ensures DrawnFrom(t, PlayRound(t, commands).table)
  {
    var p := PlayerTurn(t, commands);
    PlayerTurnDrawsFromTop(t, commands);
    if p.status == Stood {
      DealerTurnDrawsFromTop(p.table);
      DrawnFromThen(t, p.table, DealerTurn(p.table).table);
    }
  }

  /** The cards on the table, wherever they lie. */
  function TableCards(t: Table): multiset<Card>
  {
    multiset(t.deck) + multiset(t.player) + multiset(t.dealer)
  }

  lemma TableCardsSize(t: Table)
    ensures |TableCards(t)| == |t.deck| + |t.player| + |t.dealer|
  {
  }

  /** Dealing the top four cards two and two keeps every card on the table. */
  lemma DealKeepsCards(s: seq<Card>)
    requires |s| >= 4
    ensures TableCards(Table(s[4..], [s[0], s[1]], [s[2], s[3]])) == multiset(s)
  {
    assert s == [s[0], s[1]] + [s[2], s[3]] + s[4..];
  }

  /** Drawing from the top neither creates nor loses a card. */
  lemma DrawnFromKeepsCards(t: Table, r: Table)
    requires DrawnFrom(t, r)
    ensures TableCards(r) == TableCards(t)
  {
    assert r.player == t.player + r.player[|t.player|..];
    assert r.dealer == t.dealer + r.dealer[|t.dealer|..];
  }

  /** A round keeps every card on the table: none is added, lost or duplicated. */
  lemma PlayRoundKeepsCards(t: Table, commands: seq<Command>)
    ensures TableCards(PlayRound(t, commands).table) == TableCards(t)
  {
    PlayRoundDrawsFromTop(t, commands);
    DrawnFromKeepsCards(t, PlayRound(t, commands).table);
  }

  // ---------------------------------------------------------------------------
  // The player's turn

  /** Commands other than Hit and Stand, dropped. */
  function Meaningful(commands: seq<Command>): (r: seq<Command>)
    ensures forall i :: 0 <= i < |r| ==> r[i] != Other
    ensures |r| <= |commands|
  {
    if commands == [] then []
    else if commands[0] == Other then Meaningful(commands[1..])
    else [commands[0]] + Meaningful(commands[1..])
  }

  /** Unrecognised input changes nothing: the turn goes as if it had never been typed. */
  lemma {:induction false} OtherCommandsIgnored(t: Table, commands: seq<Command>)
    ensures PlayerTurn(t, commands) == PlayerTurn(t, Meaningful(commands))
    decreases |commands|
  {
    if commands != [] {
      var m := Meaningful(commands);
      match commands[0]
      case Other =>
        OtherCommandsIgnored(t, commands[1..]);
      case Stand =>
        assert m[0] == Stand;
      case Hit =>
        assert m[0] == Hit && m[1..] == Meaningful(commands[1..]);
        if t.deck != [] && HandValue(HitPlayer(t).player) <= 21 {
          OtherCommandsIgnored(HitPlayer(t), commands[1..]);
        }
    }
  }

  /** Once the player has stood or bust, later input is never read. */
  lemma {:induction false} InputAfterTurnUnread(t: Table, commands: seq<Command>, more: seq<Command>)
    requires PlayerTurn(t, commands).status != NoInput
    ensures PlayerTurn(t, commands + more) == PlayerTurn(t, commands)
    ensures PlayRound(t, commands + more) == PlayRound(t, commands)
    decreases |commands|
  {
    assert (commands + more)[0] == commands[0];
    assert (commands + more)[1..] == commands[1..] + more;
    if commands[0] == Other {
      InputAfterTurnUnread(t, commands[1..], more);
    } else if commands[0] == Hit && t.deck != [] && HandValue(HitPlayer(t).player) <= 21 {
      InputAfterTurnUnread(HitPlayer(t), commands[1..], more);
    }
  }

  /**
   * Starting from a hand that is not bust, the turn never leaves the dealer's
   * hand changed; the player ends bust exactly when the turn says so, and a
   * bust is caused by the last card drawn.
   */
  lemma {:induction false} PlayerTurnBust(t: Table, commands: seq<Command>)
    requires HandValue(t.player) <= 21
    ensures var r := PlayerTurn(t, commands);
      && r.table.dealer == t.dealer
      && (r.status == Busted <==> HandValue(r.table.player) > 21)
      && (r.status == Busted ==> HandValue(r.table.player[..|r.table.player| - 1]) <= 21)
    decreases |commands|
  {
    if commands != [] && commands[0] == Hit && t.deck != [] {
      var h := HitPlayer(t);
      assert h.player[..|h.player| - 1] == t.player;
      if HandValue(h.player) <= 21 {
        PlayerTurnBust(h, commands[1..]);
      }
    } else if commands != [] && commands[0] == Other {
      PlayerTurnBust(t, commands[1..]);
    }
  }

  /** A player bust ends the round at once: the dealer draws nothing. */
  lemma PlayerBustKeepsDealerHand(t: Table, commands: seq<Command>)
    ensures var r := PlayRound(t, commands);
      r.status == Settled(PlayerBust) ==> r.table.dealer == t.dealer
  {
    PlayerTurnDrawsFromTop(t, commands);
    var p := PlayerTurn(t, commands);
    if p.status == Stood {
      DealerTurnStops(p.table);
    }
  }

  /** From a hand that is not bust, the round ends in a player bust exactly when the player's hand is over 21. */
  lemma PlayerBustEndsRound(t: Table, commands: seq<Command>)
    requires HandValue(t.player) <= 21
    ensures var r := PlayRound(t, commands);
      r.status == Settled(PlayerBust) <==> HandValue(r.table.player) > 21
  {
    PlayerTurnBust(t, commands);
    var p := PlayerTurn(t, commands);
    if p.status == Stood {
      DealerTurnDrawsFromTop(p.table);
    }
  }

  // ---------------------------------------------------------------------------
  // The dealer's turn

  /** The dealer's turn ends only by standing or by running out of cards, and it stands exactly at 17 or more. */
  lemma {:induction false} DealerTurnStops(t: Table)
    ensures var d := DealerTurn(t);
      && (d.status == Stood || d.status == NoCard)
      && (d.status == Stood <==> HandValue(d.table.dealer) >= 17)
    decreases 17 - HardTotal(t.dealer)
  {
    if HandValue(t.dealer) < 17 {
      DealerTurnStep(t);
      if t.deck != [] {
        ValueBetweenHardAndRaw(t.dealer);
        AppendCard(t.dealer, t.deck[0]);
        DealerTurnStops(HitDealer(t));
      }
    }
  }

  /** Every hand the dealer drew to, from the one it started with, was below 17. */
  lemma {:induction false} DealerTurnDrawsBelow17(t: Table)
    ensures var r := DealerTurn(t).table;
      && |t.dealer| <= |r.dealer| && r.dealer[..|t.dealer|] == t.dealer
      && (forall k :: |t.dealer| <= k < |r.dealer| ==> HandValue(r.dealer[..k]) < 17)
    decreases 17 - HardTotal(t.dealer)
  {
    var r := DealerTurn(t).table;
    if HandValue(t.dealer) < 17 && t.deck != [] {
      var h := HitDealer(t);
      ValueBetweenHardAndRaw(t.dealer);
      AppendCard(t.dealer, t.deck[0]);
      DealerTurnDrawsBelow17(h);
      assert r.dealer[..|h.dealer|][..|t.dealer|] == t.dealer;
      forall k | |t.dealer| <= k < |r.dealer|
        ensures HandValue(r.dealer[..k]) < 17
      {
        if k == |t.dealer| {
          assert r.dealer[..k] == t.dealer;
        }
      }
    }
  }

  /**
   * After a settled round in which the player stood, the dealer stood at 17 or
   * more, drew only while below 17, and the player's hand is not bust.
   */
  lemma DealerPolicy(t: Table, commands: seq<Command>)
    requires HandValue(t.player) <= 21
    ensures var r := PlayRound(t, commands);
      r.status.Settled? && r.status.outcome != PlayerBust ==>
        && HandValue(r.table.dealer) >= 17
        && |t.dealer| <= |r.table.dealer|
        && (forall k :: |t.dealer| <= k < |r.table.dealer| ==> HandValue(r.table.dealer[..k]) < 17)
        && HandValue(r.table.player) <= 21
  {
    var p := PlayerTurn(t, commands);
    PlayerTurnBust(t, commands);
    if p.status == Stood {
      DealerTurnStops(p.table);
      DealerTurnDrawsBelow17(p.table);
      DealerTurnDrawsFromTop(p.table);
    }
  }

  // ---------------------------------------------------------------------------
  // Settling

  /** The points a party finishes with: its value, or nothing once bust. */
  function Score(value: int): int
  {
    if value > 21 then 0 else value
  }

  /**
   * For a player who stood with a hand that is not bust, the higher score wins:
   * the player wins (dealer bust or higher value) exactly when the player's score
   * is higher, loses exactly when it is lower, and pushes exactly when they are equal.
   */
  lemma SettleByScore(playerValue: int, dealerValue: int)
    requires 0 < playerValue <= 21
    ensures Settle(playerValue, dealerValue) in {DealerBust, PlayerWin} <==> Score(playerValue) > Score(dealerValue)
    ensures Settle(playerValue, dealerValue) == DealerWin <==> Score(playerValue) < Score(dealerValue)
    ensures Settle(playerValue, dealerValue) == Push <==> Score(playerValue) == Score(dealerValue)
    ensures Settle(playerValue, dealerValue) == DealerBust <==> dealerValue > 21
  {
  }

  /**
   * A round is settled other than by a player bust exactly when both turns
   * ended standing, and then the outcome compares the final hand values.
   */
  lemma RoundOutcome(t: Table, commands: seq<Command>)
    ensures var r := PlayRound(t, commands);
      var p := PlayerTurn(t, commands);
      (r.status.Settled? && r.status.outcome != PlayerBust) <==>
        (p.status == Stood && DealerTurn(p.table).status == Stood)
    ensures var r := PlayRound(t, commands);
      r.status.Settled? && r.status.outcome != PlayerBust ==>
        r.status.outcome == Settle(HandValue(r.table.player), HandValue(r.table.dealer))
  {
    var p := PlayerTurn(t, commands);
    if p.status == Stood {
      DealerTurnStops(p.table);
    }
  }

  // ---------------------------------------------------------------------------
  // The deck never runs out

  lemma {:induction false} PlayerTurnHasCards(t: Table, commands: seq<Command>)
    requires HandValue(t.player) <= 21 && |t.dealer| <= 16
    requires |t.deck| + |t.player| + |t.dealer| >= 38
    ensures var r := PlayerTurn(t, commands);
      && r.status != NoCard
      && |r.table.deck| + |r.table.player| + |r.table.dealer| == |t.deck| + |t.player| + |t.dealer|
      && (r.status == Stood ==> HandValue(r.table.player) <= 21)
    decreases |commands|
  {
    ValueAtMost21Iff(t.player);
    HardTotalAtLeastLength(t.player);
    PlayerTurnDrawsFromTop(t, commands);
    if commands != [] && commands[0] == Hit {
      assert t.deck != [];
      if HandValue(HitPlayer(t).player) <= 21 {
        PlayerTurnHasCards(HitPlayer(t), commands[1..]);
      }
    } else if commands != [] && commands[0] == Other {
      PlayerTurnHasCards(t, commands[1..]);
    }
  }

  lemma {:induction false} DealerTurnHasCards(t: Table)
    requires |t.player| <= 21
    requires |t.deck| + |t.player| + |t.dealer| >= 38
    ensures DealerTurn(t).status == Stood
    decreases 17 - HardTotal(t.dealer)
  {
    if HandValue(t.dealer) < 17 {
      ValueBetweenHardAndRaw(t.dealer);
      HardTotalAtLeastLength(t.dealer);
      assert t.deck != [];
      AppendCard(t.dealer, t.deck[0]);
      DealerTurnHasCards(HitDealer(t));
    }
  }

  /**
   * No draw of a round dealt two cards each from a deck of at least 38 cards
   * meets an empty deck: the player can hold at most 21 cards without busting
   * and the dealer at most 16 below 17, since every card is worth at least 1.
   */
  lemma DealtRoundNeverRunsOut(t: Table, commands: seq<Command>)
    requires |t.player| == 2 && |t.dealer| == 2 && |t.deck| >= 34
    ensures PlayRound(t, commands).status != DeckEmpty
  {
    TwoCardHandAtMost21(t.player);
    PlayerTurnHasCards(t, commands);
    var p := PlayerTurn(t, commands);
    if p.status == Stood {
      ValueAtMost21Iff(p.table.player);
      HardTotalAtLeastLength(p.table.player);
      DealerTurnHasCards(p.table);
    }
  }
}
