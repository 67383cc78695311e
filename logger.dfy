/**
  The console de-duplication of client/managers/logger.js. Every message goes to the log
  file; a message is printed only when its key `type:message` is not among the keys
  printed in the last `messageTTL` milliseconds. Each first print arms one timer that later
  forgets that key; all timers have the same delay, so they fire in the order they were
  armed, and `Expire` is that firing as an explicit step.

  The file itself, its path and the timestamps are not modelled: `file` records what each
  line holds besides its timestamp.
*/
module DedupLog {

  /** How long a printed key suppresses repeats, in milliseconds. */
  const MessageTtl: nat := 5000

  /** A line of the log file, without its timestamp. */
  datatype FileLine = FileLine(kind: string, message: string)

  /** The de-duplication key of a message of type `kind`. */
  function DedupKey(kind: string, message: string): string {
    kind + ":" + message
  }

  /** For one message text, the key determines the type: the same text under another type
      has another key and is never suppressed by the first. */
  lemma KeyDeterminesType(kind1: string, kind2: string, message: string)
    requires DedupKey(kind1, message) == DedupKey(kind2, message)
    ensures kind1 == kind2
  {
    var key := DedupKey(kind1, message);
    assert |kind1| == |kind2|;
    assert kind1 == key[..|kind1|] == kind2;
  }

  /** While the types contain no colon, a key determines both the type and the message. */
  lemma DedupKeyInjective(kind1: string, message1: string, kind2: string, message2: string)
    requires ':' !in kind1 && ':' !in kind2
    requires DedupKey(kind1, message1) == DedupKey(kind2, message2)
    ensures kind1 == kind2 && message1 == message2
  {
    var key := DedupKey(kind1, message1);
    assert key[|kind1|] == ':' && key[|kind2|] == ':';
    assert forall i | 0 <= i < |kind1| :: key[i] == kind1[i];
    assert forall i | 0 <= i < |kind2| :: key[i] == kind2[i];
    assert |kind1| == |kind2|;
    assert kind1 == key[..|kind1|] == kind2;
    assert message1 == key[|kind1| + 1..] == message2;
  }

  /** A type with a colon breaks that: two different lines share one key, and the
      second is taken for a repeat of the first. */
  lemma ColonInTypeCollides()
    ensures DedupKey("A:B", "C") == DedupKey("A", "B:C")
    ensures FileLine("A:B", "C") != FileLine("A", "B:C")
  {
  }

  predicate Distinct(s: seq<string>) {
    forall i, j | 0 <= i < j < |s| :: s[i] != s[j]
  }

  class Logger {
    var verbose: bool
    /** `loggedMessages`. */
    var loggedMessages: set<string>
    /** The keys whose removal timer is armed, oldest first. */
    var timers: seq<string>
    var file: seq<FileLine>
    var console: seq<string>

    /** Every remembered key has exactly one timer that will forget it. */
    ghost predicate Valid()
      reads this
    {
      Distinct(timers) && loggedMessages == set k | k in timers
    }

    constructor ()
      ensures Valid()
      ensures verbose && loggedMessages == {} && timers == [] && file == [] && console == []
    {
      verbose, loggedMessages, timers, file, console := true, {}, [], [], [];
    }

    method SetVerbose(v: bool)
      modifies this`verbose
      ensures verbose == v
    {
      verbose := v;
    }

    /** `isDuplicate(key)`: a remembered key is a repeat and changes nothing; a new key is
        remembered, with a timer to forget it. */
    method IsDuplicate(key: string) returns (dup: bool)
      requires Valid()
      modifies this`loggedMessages, this`timers
      ensures Valid()
      ensures dup <==> key in old(loggedMessages)
      ensures dup ==> loggedMessages == old(loggedMessages) && timers == old(timers)
      ensures !dup ==> loggedMessages == old(loggedMessages) + {key} && timers == old(timers) + [key]
      ensures key in loggedMessages
    {
      if key in loggedMessages {
        return true;
      }
      loggedMessages := loggedMessages + {key};
      timers := timers + [key];
      return false;
    }

    /** The oldest armed timer fires and forgets its key, and only that key. */
    method Expire()
      requires Valid() && timers != []
      modifies this`loggedMessages, this`timers
      ensures Valid()
      ensures loggedMessages == old(loggedMessages) - {old(timers)[0]}
      ensures old(timers)[0] !in loggedMessages
      ensures timers == old(timers)[1..]
    {
      var key := timers[0];
      assert key !in timers[1..];
      assert forall k :: k in timers <==> k == key || k in timers[1..];
      loggedMessages := loggedMessages - {key};
      timers := timers[1..];
    }

    /** `log(message, type, skipConsole)`: the file line is written first and always; the
        console line only when the console is not skipped and the key is new. With the
        console skipped, the remembered keys are not consulted or changed. */
    method Log(message: string, kind: string, skipConsole: bool) returns (printed: bool)
      requires Valid()
      modifies this`loggedMessages, this`timers, this`file, this`console
      ensures Valid()
      ensures file == old(file) + [FileLine(kind, message)]
      ensures printed <==> !skipConsole && DedupKey(kind, message) !in old(loggedMessages)
      ensures console == old(console) + if printed then [message] else []
      ensures skipConsole ==> loggedMessages == old(loggedMessages) && timers == old(timers)
      ensures !skipConsole ==> loggedMessages == old(loggedMessages) + {DedupKey(kind, message)}
      ensures printed ==> timers == old(timers) + [DedupKey(kind, message)]
      ensures !printed ==> timers == old(timers)
    {
      file := file + [FileLine(kind, message)];
      printed := false;
      if !skipConsole {
        var dup := IsDuplicate(DedupKey(kind, message));
        if !dup {
          console := console + [message];
          printed := true;
        }
      }
    }

    method Info(component: string, message: string) returns (printed: bool)
      requires Valid()
      modifies this`loggedMessages, this`timers, this`file, this`console
      ensures Valid()
      ensures file == old(file) + [FileLine("INFO", "[" + component + "] " + message)]
      ensures console == old(console) + if printed then ["[" + component + "] " + message] else []
      ensures printed <==> DedupKey("INFO", "[" + component + "] " + message) !in old(loggedMessages)
    {
      printed := Log("[" + component + "] " + message, "INFO", false);
    }

    method Error(component: string, message: string) returns (printed: bool)
      requires Valid()
      modifies this`loggedMessages, this`timers, this`file, this`console
      ensures Valid()
      ensures file == old(file) + [FileLine("ERROR", "[" + component + "] ERROR: " + message)]
      ensures console == old(console) + if printed then ["[" + component + "] ERROR: " + message] else []
      ensures printed <==> DedupKey("ERROR", "[" + component + "] ERROR: " + message) !in old(loggedMessages)
    {
      printed := Log("[" + component + "] ERROR: " + message, "ERROR", false);
    }

    /** `debug`: written to the file either way; printed only while verbose, and when
        not verbose the remembered keys stay as they were. */
    method Debug(component: string, message: string) returns (printed: bool)
      requires Valid()
      modifies this`loggedMessages, this`timers, this`file, this`console
      ensures Valid()
      ensures file == old(file) + [FileLine("DEBUG", "[" + component + "] DEBUG: " + message)]
      ensures console == old(console) + if printed then ["[" + component + "] DEBUG: " + message] else []
      ensures printed <==> verbose && DedupKey("DEBUG", "[" + component + "] DEBUG: " + message) !in old(loggedMessages)
      ensures !verbose ==> console == old(console) && loggedMessages == old(loggedMessages) && timers == old(timers)
    {
      printed := Log("[" + component + "] DEBUG: " + message, "DEBUG", !verbose);
    }
  }

  /** A repeat inside the window goes to the file only; once the timer has fired, the same
      message is printed again. */
  method RepeatWithinWindow() returns (logger: Logger, printed: seq<bool>)
    ensures printed == [true, false, true]
    ensures logger.file == [FileLine("INFO", "hello"), FileLine("INFO", "hello"), FileLine("INFO", "hello")]
    ensures logger.console == ["hello", "hello"]
  {
    logger := new Logger();
    var first := logger.Log("hello", "INFO", false);
    var second := logger.Log("hello", "INFO", false);
    logger.Expire();
    var third := logger.Log("hello", "INFO", false);
    printed := [first, second, third];
  }
}
