# JeuContext session controller, modelled in Dafny

`JeuContext` controls one session of a console guessing game played by a human
against the computer. It reads three parameters from the configuration: the
number of digits in a combination (`nbCombinaison`), the number of attempts
(`nbEssais`) and the developer-mode flag (`modeDev`). It holds the strategy of
the chosen mode and the player's replay decision. It runs two prompts that
read, validate and retry:

- the mode prompt (`demanderChoixMode`) takes the first `int` token in 1..3;
- the replay prompt (`rejouer`) takes the first token that is exactly "1", "2"
  or "3".

Two modules model it:

- `Parsing` (`parsing.dfy`) covers the Java library behaviour the controller
  relies on:
  - `Scanner`'s reading of an `int` token: an optional sign, decimal digits and
    the 32-bit range;
  - `Boolean.parseBoolean`;
  - a decimal rendering `IntToString`, whose numerals the reader reads back to
    the same integer within the `int` range.
- `Runtime` (`jeu_context.dfy`) holds the class `JeuContext` with the six
  fields of the source.
  - The setters and `Rejouer` are field-mutating methods whose `modifies`
    clause names only the field they write.
  - The getters `IsModeDev`, `IsPlayAgain`, `GetPlayAgainChoice` and
    `GetNbCombinaison` are functions (`reads this`). Where a getter exists, the
    constructor's and the setters' contracts are written in terms of it.
  - The two prompts are `while` loops over a finite sequence of input tokens,
    and each read consumes one token. Both return how many tokens they read.
  - Where the source would wait forever on exhausted input, the model returns
    an explicit outcome instead: `None` from the mode prompt, `accepted ==
    false` from the replay prompt.
  - The mode prompt has no `modifies` clause, so it provably changes no field.
    The replay prompt may change only `playAgainChoice`.
  - `ConstructionScenario`, `ModeChoiceScenario` and `ReplayScenario` are client
    methods. They check three example sessions against the contracts alone:
    - a configuration without `modeDev` is enough when the override is true;
    - mode tokens `0`, `4`, `2` give 2;
    - replay tokens `12`, `x`, `3` give "3".

`rejouer` stores every token it reads in `playAgainChoice`, rejected ones
included. Once `Rejouer` has read a token, the field is "1", "2" or "3" exactly
when that token was accepted. When the input runs out, the field holds the last
token read, or its previous value if no token was read (a new session starts
with "2"). `Rejouer`'s contract states exactly this.

## Model

| member | source | states |
|---|---|---|
| Parsing.ParseInt | src/main/java/com/hogwai/p3/runtime/JeuContext.java:190-191 | a token read as an `int` yields a value within the 32-bit `int` range, and only if the token contains a digit |
| Parsing.ParseIntToString | src/main/java/com/hogwai/p3/runtime/JeuContext.java:190-192 | reading back the numeral of any integer n gives n when n fits in an `int`, and "not an integer" when it overflows |
| Parsing.ParseBoolean | src/main/java/com/hogwai/p3/runtime/JeuContext.java:85 | the configured flag reads as true exactly when it is the four letters of "true", each in either case |
| Runtime.EffectiveModeDev | src/main/java/com/hogwai/p3/runtime/JeuContext.java:85 | an override of true forces developer mode on without needing a configured flag; otherwise the flag must be configured, and developer mode is true exactly when its text is "true" ignoring case |
| Runtime.ParseIntOneToThree | src/main/java/com/hogwai/p3/runtime/JeuContext.java:190-192 | a token is an `int` with value 1, 2 or 3 if and only if it ends in that digit, preceded only by zeros and an optional '+'; its value is then its final digit ("+02" and "003" denote 2 and 3) |
| Runtime.IsModeChoice | src/main/java/com/hogwai/p3/runtime/JeuContext.java:190-192 | the mode check (an `int` token in 1..3) accepts exactly the digits "1" to "3" with optional leading zeros and '+'; "-1", "0", "4" and "x" fail |
| Runtime.IsReplayChoice | src/main/java/com/hogwai/p3/runtime/JeuContext.java:255-256 | the replay check (length 1 and `^[1-3]+$`) accepts a token if and only if it is "1", "2" or "3"; "12", "x", "0" and "4" are rejected |
| Runtime.FirstAccepted | src/main/java/com/hogwai/p3/runtime/JeuContext.java:184-204 | the position where a prompt stops reading: the token there is acceptable, and every token before it was rejected; it is the input's length when no token is acceptable |
| Runtime.ReplayChoiceIsModeChoice | src/main/java/com/hogwai/p3/runtime/JeuContext.java:255-256 | every accepted replay answer would also be an accepted mode answer, with the value of its digit |
| Runtime.ModeChoiceNotReplayChoice | src/main/java/com/hogwai/p3/runtime/JeuContext.java:190-192 | the mode check is strictly more lenient: "+2" and "02" pass it but fail the replay check |
| Runtime.ModeChoiceOfNumeral | src/main/java/com/hogwai/p3/runtime/JeuContext.java:190-192 | the numeral of any integer n is accepted by the mode check if and only if 1 <= n <= 3, and then denotes n; numerals that overflow an `int` are rejected |
| Runtime.JeuContext.constructor | src/main/java/com/hogwai/p3/runtime/JeuContext.java:79-93 | needs `nbCombinaison` and `nbEssais` configured, and `modeDev` only when the override is false; a new session has no strategy, `playAgain` false and `playAgainChoice` "2"; `nbCombinaison` and `nbEssais` are the configured texts, copied unchecked; an override of true turns developer mode on, otherwise it is `parseBoolean` of the configured flag |
| Runtime.JeuContext.SetStrategyMode | src/main/java/com/hogwai/p3/runtime/JeuContext.java:100-102 | binds the given strategy (or none) and changes no other field |
| Runtime.JeuContext.SetModeDev | src/main/java/com/hogwai/p3/runtime/JeuContext.java:123-125 | afterwards `IsModeDev()` returns the new value; no other field changes |
| Runtime.JeuContext.IsModeDev | src/main/java/com/hogwai/p3/runtime/JeuContext.java:131-133 | returns the stored developer-mode flag, reading nothing else; the constructor fixes it from the override and the configuration, and `SetModeDev` at its argument |
| Runtime.JeuContext.SetPlayAgain | src/main/java/com/hogwai/p3/runtime/JeuContext.java:139-141 | afterwards `IsPlayAgain()` returns the new value; no other field changes |
| Runtime.JeuContext.IsPlayAgain | src/main/java/com/hogwai/p3/runtime/JeuContext.java:147-149 | returns the stored replay wish, reading nothing else; the constructor fixes it at false, `SetPlayAgain` at its argument, and `Rejouer` leaves it alone |
| Runtime.JeuContext.GetPlayAgainChoice | src/main/java/com/hogwai/p3/runtime/JeuContext.java:155-157 | returns the stored replay answer, reading nothing else; the constructor fixes it at "2" and `Rejouer` at the last token it read |
| Runtime.JeuContext.GetNbCombinaison | src/main/java/com/hogwai/p3/runtime/JeuContext.java:163-165 | returns the stored combination length, reading nothing else; the constructor fixes it at the configured text, and no method changes it |
| Runtime.JeuContext.AfficherMenu | src/main/java/com/hogwai/p3/runtime/JeuContext.java:170-173 | needs a bound strategy; menu display is delegated to that strategy |
| Runtime.JeuContext.DemanderChoixMode | src/main/java/com/hogwai/p3/runtime/JeuContext.java:179-206 | returns a choice in 1..3: the value of the first token that is an `int` in 1..3, after reading exactly the tokens up to it; every earlier token was a non-integer or out of range; no acceptable token gives None after reading all input; no field changes |
| Runtime.JeuContext.LancerPartie | src/main/java/com/hogwai/p3/runtime/JeuContext.java:216-223 | needs a bound strategy; waits 3000 ms, then has that strategy play a round between a human handler given the chosen mode and a computer handler |
| Runtime.JeuContext.Rejouer | src/main/java/com/hogwai/p3/runtime/JeuContext.java:242-270 | stops after the first token that is "1", "2" or "3" and then holds it in `playAgainChoice`; `playAgainChoice` always holds the last token read; when the input runs out it reports no acceptance; only `playAgainChoice` changes |

## Left out

- Console output and log4j logging: they are side effects with no state that
  the controller reads back.
- `getProperties` and `ResourceBundle` loading: the configuration is passed as
  a key-to-text map. The constructor requires the keys it reads: `nbCombinaison`
  and `nbEssais` always, and `modeDev` only when the override is false. The
  source fails with a null dereference when the bundle is missing, and with
  `MissingResourceException` when a key it reads is missing.
- `Scanner` details:
  - a fresh `Scanner` is built on every attempt;
  - `hasNextInt` does not consume a rejected token;
  - locale group separators and non-ASCII digits are accepted in `int` tokens.

  The model reads one token per attempt and accepts only an optional sign
  followed by ASCII digits.
- Blocking on closed input: the source prompts loop forever. The model ends
  with an explicit "no more input" outcome.
- `timer`: `Thread.sleep` and the re-raising of a thread interrupt are wall-clock
  and thread behaviour. Only the 3000 ms delay before a round is recorded, as
  the `Sleep` effect of `LancerPartie`.
- `StrategyMode`, `IAHandler`, `UtilisateurHandler` and `Mode.ModeName` are not
  part of this model. They are represented by plain tags, and what a strategy
  does with its menu and its round is not modelled.
- Parsing.ParseBoolean: folds only ASCII letters, not Java's full Unicode
  case mapping.
- The `Boolean` override of the constructor is a plain `bool`, so unboxing a
  null is not modelled. A null strategy passed to `setStrategyMode` is `None`.
