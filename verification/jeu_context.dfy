/**
 * The session controller of the guessing game (class `JeuContext` of package
 * `com.hogwai.p3.runtime`): it holds the session parameters read from the
 * configuration, the strategy bound for the current mode, and the player's
 * replay decision, and it runs the two read-validate-retry prompts.
 *
 * Console input is a finite sequence of whitespace-delimited tokens; each read
 * consumes exactly one token. Where the Java prompts would wait forever on
 * a closed input, the model reports that no acceptable token was left.
 */
module Runtime {
  import opened Parsing

  /** The configuration bundle: keys to their text values. */
  type Config = map<string, string>

  const KeyNbCombinaison := "nbCombinaison"
  const KeyNbEssais := "nbEssais"
  const KeyModeDev := "modeDev"

  /** Delay, in milliseconds, between announcing a round and starting it. */
  const StartDelayMillis: nat := 3000

  /** The value configured for `key`, if any. */
  function ConfigValue(config: Config, key: string): Option<string> {
    if key in config then Some(config[key]) else None
  }

  /**
   * The configuration defines every parameter the constructor reads; the
   * developer-mode flag is read only when no override forces it on.
   */
  predicate HasSettings(config: Config, modeDevOverride: bool) {
    KeyNbCombinaison in config && KeyNbEssais in config && (!modeDevOverride ==> KeyModeDev in config)
  }

  /**
   * Developer mode as the constructor decides it: an override of true wins
   * without consulting the configuration, otherwise the configured text is
   * read as a Java boolean.
   */
  function EffectiveModeDev(modeDevOverride: bool, configured: Option<string>): (b: bool)
    requires modeDevOverride || configured.Some?
    ensures modeDevOverride ==> b
    ensures !modeDevOverride ==>
      (b <==> (|configured.value| == 4 &&
               forall i :: 0 <= i < 4 ==> configured.value[i] == "true"[i] || configured.value[i] == "TRUE"[i]))
  {
    if modeDevOverride then modeDevOverride else ParseBoolean(configured.value)
  }

  /**
   * The tokens whose `int` value is 1, 2 or 3 are exactly the digit itself,
   * preceded by zeros and optionally by a '+' sign.
   */
  lemma ParseIntOneToThree(t: string)
    ensures (ParseInt(t).Some? && 1 <= ParseInt(t).value <= 3) <==>
      (|t| > 0 && '1' <= t[|t| - 1] <= '3' && (forall i :: 0 < i < |t| - 1 ==> t[i] == '0')
       && (|t| == 1 || t[0] == '+' || t[0] == '0'))
    ensures ParseInt(t).Some? && 1 <= ParseInt(t).value <= 3 ==>
      ParseInt(t).value == t[|t| - 1] as int - '0' as int
  {
    if |t| > 0 {
      var digits := if t[0] == '-' || t[0] == '+' then t[1..] else t;
      if |digits| > 0 && AllDigits(digits) {
        var p := digits[..|digits| - 1];
        DigitsValueZero(p);
        assert digits == p + [t[|t| - 1]];
      }
    }
  }

  /**
   * A token accepted by the mode prompt: an `int` between 1 and 3. Those are
   * the digits "1" to "3", with leading zeros and an optional '+' allowed.
   */
  predicate IsModeChoice(token: string): (b: bool)
    ensures b <==> |token| > 0 && '1' <= token[|token| - 1] <= '3'
                   && (forall i :: 0 < i < |token| - 1 ==> token[i] == '0')
                   && (|token| == 1 || token[0] == '+' || token[0] == '0')
  {
    ParseIntOneToThree(token);
    var n := ParseInt(token);
    n.Some? && 1 <= n.value <= 3
  }

  /** The pattern `^[1-3]+$`, matched against a whole token. */
  predicate MatchesOneToThree(token: string) {
    |token| > 0 && forall i :: 0 <= i < |token| ==> '1' <= token[i] <= '3'
  }

  /**
   * A token accepted by the replay prompt: one character, matching `^[1-3]+$`.
   * Exactly "1", "2" and "3" pass; "12", "x", "0" and "4" do not.
   */
  predicate IsReplayChoice(token: string): (b: bool)
    ensures b <==> token == "1" || token == "2" || token == "3"
  {
    |token| == 1 && MatchesOneToThree(token)
  }

  /**
   * Position of the first token that `accept` admits, or the length of the
   * input when none does: the prompt loops read up to and including it.
   */
  function FirstAccepted(input: seq<string>, accept: string -> bool): (k: nat)
    ensures k <= |input|
    ensures k < |input| ==> accept(input[k])
    ensures forall j :: 0 <= j < k ==> !accept(input[j])
  {
    if input == [] then 0
    else if accept(input[0]) then 0
    else 1 + FirstAccepted(input[1..], accept)
  }

  /** Every replay answer is also a valid mode answer, denoting its digit. */
  lemma ReplayChoiceIsModeChoice(token: string)
    requires IsReplayChoice(token)
    ensures IsModeChoice(token) && ParseInt(token) == Some(token[0] as int - '0' as int)
  {
  }

  /** The mode prompt is the more lenient one: it takes a sign or leading zeros. */
  lemma ModeChoiceNotReplayChoice()
    ensures IsModeChoice("+2") && !IsReplayChoice("+2")
    ensures IsModeChoice("02") && !IsReplayChoice("02")
  {
  }

  /**
   * For the numeral of any integer n, the mode prompt accepts it exactly when
   * 1 <= n <= 3; numerals too large for an `int` are rejected as non-integers.
   */
  lemma ModeChoiceOfNumeral(n: int)
    ensures IsModeChoice(IntToString(n)) <==> 1 <= n <= 3
    ensures IsModeChoice(IntToString(n)) ==> ParseInt(IntToString(n)) == Some(n)
  {
    ParseIntToString(n);
  }

  /** The concrete strategies a session can be bound to, one per mode. */
  datatype StrategyMode = ChallengerStrategy | DefenseurStrategy | DuelStrategy

  /** The mode handed to the human player's handler. */
  datatype ModeName = Challenger | Defenseur | Duel

  /** The two participants of a round. */
  datatype Player = Human(mode: ModeName) | Computer

  /** What the controller asks of its collaborators, in order. */
  datatype Effect =
    | ShowMenu(strategy: StrategyMode)
    | Sleep(millis: nat)
    | Play(strategy: StrategyMode, user: Player, ai: Player)

  class JeuContext {
    /** Strategy of the chosen mode; None until one is bound. */
    var strategyMode: Option<StrategyMode>
    /** Number of digits in a combination, as configured (text). */
    var nbCombinaison: string
    /** Number of attempts each player has, as configured (text). */
    var nbEssais: string
    var modeDev: bool
    var playAgain: bool
    /** The last answer read by the replay prompt. */
    var playAgainChoice: string

    constructor (config: Config, modeDevOverride: bool)
      requires HasSettings(config, modeDevOverride)
      ensures strategyMode == None
      ensures !IsPlayAgain() && GetPlayAgainChoice() == "2"
      ensures GetNbCombinaison() == config[KeyNbCombinaison] && nbEssais == config[KeyNbEssais]
      ensures IsModeDev() == EffectiveModeDev(modeDevOverride, ConfigValue(config, KeyModeDev))
      ensures modeDevOverride ==> IsModeDev()
      ensures !modeDevOverride ==> IsModeDev() == ParseBoolean(config[KeyModeDev])
    {
      strategyMode := None;
      playAgain := false;
      playAgainChoice := "2";
      nbCombinaison := config[KeyNbCombinaison];
      nbEssais := config[KeyNbEssais];
      modeDev := EffectiveModeDev(modeDevOverride, ConfigValue(config, KeyModeDev));
    }

    method SetStrategyMode(mode: Option<StrategyMode>)
      modifies this`strategyMode
      ensures strategyMode == mode
    {
      strategyMode := mode;
    }

    method SetModeDev(b: bool)
      modifies this`modeDev
      ensures IsModeDev() == b
    {
      modeDev := b;
    }

    /** The developer-mode flag: set by the constructor and by `SetModeDev`. */
    function IsModeDev(): (b: bool)
      reads this
      ensures b == modeDev
    {
      modeDev
    }

    method SetPlayAgain(b: bool)
      modifies this`playAgain
      ensures IsPlayAgain() == b
    {
      playAgain := b;
    }

    /** The replay wish: false after construction, then set only by `SetPlayAgain`. */
    function IsPlayAgain(): (b: bool)
      reads this
      ensures b == playAgain
    {
      playAgain
    }

    /** The stored replay answer: "2" after construction, then the last token `Rejouer` read. */
    function GetPlayAgainChoice(): (c: string)
      reads this
      ensures c == playAgainChoice
    {
      playAgainChoice
    }

    /** The configured combination length, as set by the constructor. */
    function GetNbCombinaison(): (n: string)
      reads this
      ensures n == nbCombinaison
    {
      nbCombinaison
    }

    /** Menu display is delegated to the bound strategy. */
    method AfficherMenu() returns (effect: Effect)
      requires strategyMode.Some?
      ensures effect == ShowMenu(strategyMode.value)
    {
      effect := ShowMenu(strategyMode.value);
    }

    /**
     * Mode prompt: reads tokens until one is an `int` in [1, 3] and returns
     * it, with the number of tokens read; None when the input runs out first.
     */
    method DemanderChoixMode(input: seq<string>) returns (choice: Option<int>, consumed: nat)
      ensures consumed <= |input|
      ensures choice.Some? ==> 1 <= choice.value <= 3
      ensures choice.Some? <==> FirstAccepted(input, IsModeChoice) < |input|
      ensures choice.Some? ==> consumed == FirstAccepted(input, IsModeChoice) + 1
                               && choice == ParseInt(input[consumed - 1])
      ensures choice.None? ==> consumed == |input|
    {
      var checkSaisie := false;
      var choix := 0;
      consumed := 0;
      while !checkSaisie && consumed < |input|
        invariant consumed <= |input|
        decreases |input| - consumed
        invariant checkSaisie ==> 0 < consumed && IsModeChoice(input[consumed - 1])
                                  && ParseInt(input[consumed - 1]) == Some(choix)
        invariant forall j ::
          (0 <= j < consumed && !(checkSaisie && j == consumed - 1)) ==> !IsModeChoice(input[j])
      {
        var token := input[consumed];
        consumed := consumed + 1;
        var n := ParseInt(token);
        if n.Some? {
          choix := n.value;
          checkSaisie := 1 <= choix <= 3;
        } else {
          checkSaisie := false;
        }
      }
      choice := if checkSaisie then Some(choix) else None;
    }

    /**
     * Round start: the human handler gets the chosen mode, the controller waits
     * the start delay, then the bound strategy plays the round.
     */
    method LancerPartie(mode: ModeName) returns (effects: seq<Effect>)
      requires strategyMode.Some?
      ensures effects == [Sleep(StartDelayMillis), Play(strategyMode.value, Human(mode), Computer)]
    {
      var ia := Computer;
      var utilisateur := Human(mode);
      effects := [Sleep(StartDelayMillis), Play(strategyMode.value, utilisateur, ia)];
    }

    /**
     * Replay prompt: stores every token read in playAgainChoice and stops at
     * the first of "1", "2", "3"; `accepted` is false when the input runs out.
     */
    method Rejouer(input: seq<string>) returns (accepted: bool, consumed: nat)
      modifies this`playAgainChoice
      ensures var k := FirstAccepted(input, IsReplayChoice);
        accepted == (k < |input|) && consumed == (if accepted then k + 1 else |input|)
      ensures GetPlayAgainChoice() == if consumed == 0 then old(playAgainChoice) else input[consumed - 1]
      ensures accepted ==> GetPlayAgainChoice() in {"1", "2", "3"}
    {
      var checkSaisie := false;
      consumed := 0;
      while !checkSaisie && consumed < |input|
        invariant consumed <= |input|
        decreases |input| - consumed
        invariant playAgainChoice == if consumed == 0 then old(playAgainChoice) else input[consumed - 1]
        invariant checkSaisie ==> 0 < consumed && IsReplayChoice(input[consumed - 1])
        invariant forall j ::
          (0 <= j < consumed && !(checkSaisie && j == consumed - 1)) ==> !IsReplayChoice(input[j])
      {
        playAgainChoice := input[consumed];
        consumed := consumed + 1;
        checkSaisie := |playAgainChoice| == 1 && MatchesOneToThree(playAgainChoice);
      }
      accepted := checkSaisie;
    }
  }

  /**
   * Sessions over "4" digits and "10" attempts: developer mode "false" without
   * override, the same with override, and no flag at all with override. A
   * replay prompt on empty input leaves the initial answer "2" in place.
   */
  method ConstructionScenario() {
    var config := map[KeyNbCombinaison := "4", KeyNbEssais := "10", KeyModeDev := "false"];
    var ctx := new JeuContext(config, false);
    assert !ctx.IsModeDev() && ctx.GetNbCombinaison() == "4" && ctx.nbEssais == "10";
    assert ctx.GetPlayAgainChoice() == "2" && !ctx.IsPlayAgain();
    var accepted, consumed := ctx.Rejouer([]);
    assert !accepted && consumed == 0 && ctx.GetPlayAgainChoice() == "2";
    var forced := new JeuContext(config, true);
    assert forced.IsModeDev();
    var noFlag := map[KeyNbCombinaison := "4", KeyNbEssais := "10"];
    var forcedWithoutFlag := new JeuContext(noFlag, true);
    assert forcedWithoutFlag.IsModeDev();
  }

  /** Tokens "0", "4", "2": two rejections, then the mode prompt returns 2. */
  method ModeChoiceScenario(ctx: JeuContext) {
    var before := ctx.GetPlayAgainChoice();
    ModeChoiceOfNumeral(0);
    ModeChoiceOfNumeral(4);
    ModeChoiceOfNumeral(2);
    var choice, consumed := ctx.DemanderChoixMode(["0", "4", "2"]);
    assert choice == Some(2) && consumed == 3;
    assert ctx.GetPlayAgainChoice() == before;
  }

  /** Tokens "12", "x", "3": two rejections, then the replay choice is "3". */
  method ReplayScenario(ctx: JeuContext)
    modifies ctx
  {
    var mode := ctx.IsModeDev();
    var accepted, consumed := ctx.Rejouer(["12", "x", "3"]);
    assert accepted && consumed == 3 && ctx.GetPlayAgainChoice() == "3";
    assert ctx.IsModeDev() == mode;
    accepted, consumed := ctx.Rejouer(["0", "4"]);
    assert !accepted && consumed == 2 && ctx.GetPlayAgainChoice() == "4";
  }
}
