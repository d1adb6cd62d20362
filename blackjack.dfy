/**
 * The game object: it owns the deck and both hands, deals on construction
 * and plays one round. Each method is proved to follow the pure round model
 * of module Rules.
 */
module Blackjack {
  import opened Wrappers
  import opened Cards
  import opened Scoring
  import opened Decks
  import opened Rules

  class Game {
    var deck: Deck
    var playerHand: seq<Card>
    var dealerHand: seq<Card>

    /** The table this game is at. */
    ghost function State(): Table
      reads this, deck
    {
      Table(deck.cards, playerHand, dealerHand)
    }

    /** Every card of a standard deck is on the table, each exactly once. */
    ghost predicate Valid()
      reads this, deck
    {
      TableCards(State()) == multiset(StandardDeck())
    }

    /**
     * A new deck, shuffled with the given choices, then two cards to the
     * player and two to the dealer, in the order player, player, dealer, dealer.
     */
    constructor (picks: seq<nat>)
      requires ValidPicks(picks, 52)
      ensures Valid() && fresh(deck)
      ensures var s := Shuffled(StandardDeck(), picks);
        && |s| == 52
        && playerHand == [s[0], s[1]]
        && dealerHand == [s[2], s[3]]
        && deck.cards == s[4..]
    {
      deck := new Deck();
      playerHand := [];
      dealerHand := [];
      new;
      deck.Shuffle(picks);
      DealTwoEach();
    }

    /** The four draws of the deal, from a deck of any size of at least four. */
    method DealTwoEach()
      requires |deck.cards| >= 4 && playerHand == [] && dealerHand == []
      modifies this, deck
      ensures deck == old(deck)
      ensures TableCards(State()) == multiset(old(deck.cards))
      ensures var s := old(deck.cards);
        && playerHand == [s[0], s[1]]
        && dealerHand == [s[2], s[3]]
        && deck.cards == s[4..]
    {
      ghost var s := deck.cards;
      var c1 := deck.Draw();
      assert c1 == Some(s[0]) && deck.cards == s[1..];
      var c2 := deck.Draw();
      assert c2 == Some(s[1]) && deck.cards == s[2..];
      var c3 := deck.Draw();
      assert c3 == Some(s[2]) && deck.cards == s[3..];
      var c4 := deck.Draw();
      assert c4 == Some(s[3]) && deck.cards == s[4..];
      DealKeepsCards(s);
      playerHand := [c1.value, c2.value];
      dealerHand := [c3.value, c4.value];
    }

    /**
     * The round after the deal: the player's commands are consumed until a
     * Stand or a bust, then the dealer draws while below 17 and the round is
     * settled. A draw from an empty deck, or input that ends before the player
     * stands or busts, aborts the round.
     */
    method Play(commands: seq<Command>) returns (status: RoundEnd)
      requires Valid()
      modifies this, deck
      ensures deck == old(deck)
      ensures RoundResult(status, State()) == PlayRound(old(State()), commands)
      ensures Valid()
      ensures status == Settled(PlayerBust) ==> dealerHand == old(dealerHand)
      ensures old(|playerHand| == 2 && |dealerHand| == 2) ==> status != DeckEmpty
      ensures old(|playerHand| == 2) && status.Settled? && status.outcome != PlayerBust ==>
        HandValue(playerHand) <= 21 && HandValue(dealerHand) >= 17
    {
      ghost var start := State();
      PlayRoundKeepsCards(start, commands);
      PlayerBustKeepsDealerHand(start, commands);
      if |playerHand| == 2 {
        TwoCardHandAtMost21(playerHand);
        DealerPolicy(start, commands);
      }
      if |playerHand| == 2 && |dealerHand| == 2 {
        TableCardsSize(start);
        DealtRoundNeverRunsOut(start, commands);
      }

      var turn := RunPlayerTurn(commands);
      match turn {
        case Busted => return Settled(PlayerBust);
        case NoInput => return InputEnded;
        case NoCard => return DeckEmpty;
        case Stood =>
      }
      turn := RunDealerTurn();
      if turn == NoCard {
        return DeckEmpty;
      }
      var playerValue := CalculateHandValue(playerHand);
      var dealerValue := CalculateHandValue(dealerHand);
      status := Settled(Settle(playerValue, dealerValue));
    }

    /**
     * The player's loop: read commands until a Stand, or until a Hit takes the
     * hand over 21; anything else is ignored.
     */
    method RunPlayerTurn(commands: seq<Command>) returns (end: TurnEnd)
      modifies this, deck
      ensures deck == old(deck)
      ensures Turn(end, State()) == PlayerTurn(old(State()), commands)
    {
      ghost var start := State();
      var k := 0;
      while k < |commands|
        invariant 0 <= k <= |commands|
        invariant deck == old(deck)
        invariant PlayerTurn(State(), commands[k..]) == PlayerTurn(start, commands)
        decreases |commands| - k
      {
        ghost var before := State();
        PlayerTurnStep(before, commands[k..]);
        assert commands[k..][1..] == commands[k + 1..];
        match commands[k] {
          case Hit =>
            var c := deck.Draw();
            if c.None? {
              return NoCard;
            }
            playerHand := playerHand + [c.value];
            assert State() == HitPlayer(before);
            var playerValue := CalculateHandValue(playerHand);
            if playerValue > 21 {
              return Busted;
            }
          case Stand =>
            return Stood;
          case Other =>
        }
        k := k + 1;
      }
      return NoInput;
    }

    /** The dealer's loop: draw while the dealer's hand is worth less than 17. */
    method RunDealerTurn() returns (end: TurnEnd)
      modifies this, deck
      ensures deck == old(deck)
      ensures Turn(end, State()) == DealerTurn(old(State()))
    {
      ghost var start := State();
      var dealerValue := CalculateHandValue(dealerHand);
      while dealerValue < 17
        invariant deck == old(deck)
        invariant dealerValue == HandValue(dealerHand)
        invariant DealerTurn(State()) == DealerTurn(start)
        decreases 17 - HardTotal(dealerHand)
      {
        ghost var before := State();
        DealerTurnStep(before);
        ValueBetweenHardAndRaw(dealerHand);
        var c := deck.Draw();
        if c.None? {
          return NoCard;
        }
        AppendCard(dealerHand, c.value);
        dealerHand := dealerHand + [c.value];
        assert State() == HitDealer(before);
        dealerValue := CalculateHandValue(dealerHand);
      }
      return Stood;
    }

    /**
     * Sums the cards with Aces as 11 and faces as 10, then takes 10 off per Ace
     * while the total is over 21 and an Ace is left.
     */
    method CalculateHandValue(hand: seq<Card>) returns (value: int)
      ensures value == HandValue(hand)
    {
      value := 0;
      var aceCount: nat := 0;
      for i := 0 to |hand|
        invariant value == RawTotal(hand[..i])
        invariant aceCount == AceCount(hand[..i])
      {
        var card := hand[i];
        assert hand[..i + 1][..i] == hand[..i];
        if card.rank == 1 {
          aceCount := aceCount + 1;
          value := value + 11;
        } else if card.rank > 10 {
          value := value + 10;
        } else {
          value := value + card.rank;
        }
      }
      assert hand[..|hand|] == hand;
      while value > 21 && aceCount > 0
        invariant Soften(value, aceCount) == HandValue(hand)
        decreases aceCount
      {
        value := value - 10;
        aceCount := aceCount - 1;
      }
    }
  }
}
