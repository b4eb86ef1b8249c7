/** The did-you-mean command group of httpcli/did_you_mean.py. */
module DidYouMean {
  import opened Wrappers

  const SuggestionHeader := "\n\nDid you mean one of these?\n"

  /** `f'    • {command_name}\n'` */
  function Bullet(name: string): string {
    "    \U{2022} " + name + "\n"
  }

  /** One bullet per name, in order: empty exactly for no names, and otherwise ending in a newline. */
  function Bullets(names: seq<string>): (b: string)
    ensures b == [] <==> names == []
    ensures b != [] ==> b[|b| - 1] == '\n'
  {
    if names == [] then "" else Bullets(names[..|names| - 1]) + Bullet(names[|names| - 1])
  }

  /** Python's `s[:-1]`: everything but the last character; `''` stays `''`. */
  function DropLast(s: string): (r: string)
    ensures s == [] ==> r == []
    ensures s != [] ==> r + [s[|s| - 1]] == s
  {
    if s == [] then [] else s[..|s| - 1]
  }

  /**
   * The message `resolve_command` raises for an unknown command, given the
   * close matches: without matches the original message less its last
   * character; with matches one character less than the message, the
   * header and the bullets together.
   */
  function Suggestion(message: string, matches: seq<string>): (r: string)
    ensures matches == [] ==> r == DropLast(message)
    ensures matches != [] ==> |r| == |message| + |SuggestionHeader| + |Bullets(matches)| - 1
  {
    DropLast(message + if matches == [] then "" else SuggestionHeader + Bullets(matches))
  }

  /** The message building of `resolve_command`: the header and the bullets appended with `+=`, then `[:-1]`. */
  method SuggestionMessage(message: string, matches: seq<string>) returns (r: string)
    ensures r == Suggestion(message, matches)
  {
    var errorMessage := message;
    if matches != [] {
      errorMessage := errorMessage + SuggestionHeader;
      for i := 0 to |matches|
        invariant errorMessage == message + SuggestionHeader + Bullets(matches[..i])
      {
        assert matches[..i + 1][..i] == matches[..i];
        assert Bullets(matches[..i + 1]) == Bullets(matches[..i]) + Bullet(matches[i]);
        errorMessage := errorMessage + Bullet(matches[i]);
      }
      assert matches[..|matches|] == matches;
    }
    r := DropLast(errorMessage);
  }

  /** Bullets for two runs of names are the bullets of each, in order. */
  lemma {:induction false} BulletsAppend(a: seq<string>, b: seq<string>)
    ensures Bullets(a + b) == Bullets(a) + Bullets(b)
  {
    if b != [] {
      var init := b[..|b| - 1];
      assert (a + b)[..|a + b| - 1] == a + init;
      BulletsAppend(a, init);
    }
    else {
      assert a + b == a;
    }
  }

  /** Each match's bullet sits between the bullets of the matches before it and those after it. */
  lemma BulletsInOrder(before: seq<string>, name: string, after: seq<string>)
    ensures Bullets(before + [name] + after) == Bullets(before) + Bullet(name) + Bullets(after)
  {
    BulletsAppend(before + [name], after);
    BulletsAppend(before, [name]);
    assert [name][..0] == [];
  }

  /** With matches, only the last bullet's newline is cut off. */
  lemma SuggestionKeepsBullets(message: string, matches: seq<string>)
    requires matches != []
    ensures Suggestion(message, matches) + "\n" == message + SuggestionHeader + Bullets(matches)
  {
  }

  /** Without matches, the last character of the original message is cut off. */
  lemma NoMatchesDropsLastCharacter(message: string)
    requires message != []
    ensures Suggestion(message, []) + [message[|message| - 1]] == message
  {
    assert message + "" == message;
  }

  /** A single match gives the header then one bullet without its newline. */
  lemma SingleMatch(message: string, name: string)
    ensures Suggestion(message, [name]) == message + SuggestionHeader + "    \U{2022} " + name
  {
    assert Bullets([name]) == Bullet(name) by {
      assert [name][..0] == [];
    }
    var kept := message + SuggestionHeader + "    \U{2022} " + name;
    assert message + (SuggestionHeader + Bullets([name])) == kept + "\n";
  }

  /** A click group that appends close matches to the error for an unknown command. */
  class DymGroup {
    var maxSuggestions: int
    var cutoff: real
    /** `list_commands(ctx)`: the names of the registered commands. */
    var commands: seq<string>

    /** `kwargs.pop('max_suggestions', 3)` and `kwargs.pop('cutoff', 0.5)`: `None` when not supplied. */
    constructor (commands: seq<string>, maxSuggestions: Option<int> := None, cutoff: Option<real> := None)
      ensures this.maxSuggestions == maxSuggestions.GetOr(3) && this.cutoff == cutoff.GetOr(0.5)
      ensures this.commands == commands
    {
      this.maxSuggestions := maxSuggestions.GetOr(3);
      this.cutoff := cutoff.GetOr(0.5);
      this.commands := commands;
    }

    /**
     * `resolve_command`. `resolve(args)` is click's own lookup: the command
     * name, or the message of the UsageError it raised. `closeMatches` is
     * `difflib.get_close_matches`. A resolved command is returned as it is;
     * a failed lookup raises its message with the suggestions for `args[0]`.
     */
    method ResolveCommand(args: seq<string>, resolve: seq<string> -> Result<string, string>,
                          closeMatches: (string, seq<string>, int, real) -> seq<string>)
      returns (r: Result<string, string>)
      requires args != []
      ensures resolve(args).Success? ==> r == resolve(args)
      ensures resolve(args).Failure? ==>
        r == Failure(Suggestion(resolve(args).error, closeMatches(args[0], commands, maxSuggestions, cutoff)))
    {
      match resolve(args) {
        case Success(name) =>
          r := Success(name);
        case Failure(errorMessage) =>
          var matches := closeMatches(args[0], commands, maxSuggestions, cutoff);
          var message := SuggestionMessage(errorMessage, matches);
          r := Failure(message);
      }
    }
  }
}
