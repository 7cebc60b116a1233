/** Decoded logs, and how an address or a lobby id found in one becomes a map key. A missing argument is empty or zero. */
module EventLog {
  import opened Options

  datatype IndexedEvent =
    | LobbyCreated(blockNumber: int, lobbyId: string, creator: string, name: string, entryPrice: nat, startPrizePool: nat,
                   registrationDeadline: int)
    | GlobalDefenseOpened(blockNumber: int, lobbyId: string, pool: nat)
    | PlayerJoined(blockNumber: int, lobbyId: string, player: string, paid: nat, participantCount: nat)
    | PlayerLeft(blockNumber: int, lobbyId: string, player: string, refunded: nat, participantCount: nat)
    | ProbesPurchased(blockNumber: int, lobbyId: string, player: string, count: nat, paid: nat)
    | ProbeSent(blockNumber: int, lobbyId: string, player: string)
    | DefenseSubmitted(blockNumber: int, lobbyId: string, player: string)
    | OperationStarted(blockNumber: int, lobbyId: string)
    | LobbyCancelled(blockNumber: int, lobbyId: string, reason: Option<string>)
    | AttackExpired(blockNumber: int, lobbyId: string, reason: Option<string>)
    | WinnerDetermined(blockNumber: int, lobbyId: string, winners: seq<string>, intercepted: bool)
    | RewardClaimed(blockNumber: int, lobbyId: string, player: string, amount: nat)
    | RefundClaimed(blockNumber: int, lobbyId: string, player: string, amount: nat)
    | CreatorSettled(blockNumber: int, lobbyId: string, creator: string, amount: nat)
    | OtherEvent(blockNumber: int, lobbyId: string)

  function Lower(c: char): char { if 'A' <= c <= 'Z' then c - 'A' + 'a' else c }

  function LowerCase(s: string): string { seq(|s|, i requires 0 <= i < |s| => Lower(s[i])) }

  predicate IsHexDigit(c: char) { '0' <= c <= '9' || 'a' <= Lower(c) <= 'f' }

  predicate IsAddress(s: string) {
    |s| == 42 && s[0] == '0' && Lower(s[1]) == 'x' && forall i :: 2 <= i < 42 ==> IsHexDigit(s[i])
  }

  /** The key a wallet is filed under; nothing that is not an address has one. */
  function Key(s: string): Option<string> { if IsAddress(s) then Some(LowerCase(s)) else None }

  function LobbyKey(s: string): Option<string> { if |s| >= 2 && s[..2] == "0x" then Some(LowerCase(s)) else None }

  /** Two spellings of one wallet are one key, a key is its own key, and distinct keys are distinct wallets. */
  lemma KeyIgnoresCase(s: string, t: string)
    ensures LowerCase(s) == LowerCase(t) ==> Key(s) == Key(t)
    ensures Key(s).Some? && Key(t).Some? && Key(s) == Key(t) ==> LowerCase(s) == LowerCase(t)
    ensures Key(s).Some? ==> Key(Key(s).value) == Key(s)
  {
    LowerTwice(s);
    if LowerCase(s) == LowerCase(t) {
      LowerSame(s, t);
    }
    if IsAddress(s) {
      LowerSame(s, LowerCase(s));
    }
  }

  lemma LowerTwice(s: string)
    ensures LowerCase(LowerCase(s)) == LowerCase(s)
  {
    forall i | 0 <= i < |s|
      ensures Lower(Lower(s[i])) == Lower(s[i])
    {
    }
  }

  lemma LowerSame(s: string, t: string)
    requires LowerCase(s) == LowerCase(t)
    ensures IsAddress(s) <==> IsAddress(t)
  {
    assert |s| == |t|;
    forall i | 0 <= i < |s|
      ensures Lower(s[i]) == Lower(t[i])
    {
      assert LowerCase(s)[i] == LowerCase(t)[i];
    }
    forall i | 0 <= i < |s|
      ensures IsHexDigit(s[i]) == IsHexDigit(t[i]) && (s[i] == '0' <==> t[i] == '0')
    {
    }
  }
}
