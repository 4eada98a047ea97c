/** Reading private key passwords from the terminal: one entry for using a
    key, two equal entries of 4 to 1023 bytes for creating one. The
    terminal is a queue of entries given in advance and a record of what
    was printed. */
module Passwords {
  import opened Common

  /** Why `terminal.ReadPassword` failed. */
  datatype TerminalError = EndOfInput | DeviceError(code: nat)

  /** What one `terminal.ReadPassword` returns: the bytes typed, without the
      end of line, or an error. */
  datatype Entry = Typed(password: seq<byte>) | ReadFailed(error: TerminalError)

  /** The errors of this file; `Message` gives their text. */
  datatype PasswordError = CannotRead(cause: TerminalError) | Mismatch | TooShort | TooLong

  /** The shortest and longest password accepted for a new key, in bytes,
      the bounds OpenSSL uses. */
  const MinLen: nat := 4
  const MaxLen: nat := 1023

  /** The text of an error of this file; a terminal error keeps its own
      text, which this model does not define. */
  function Message(e: PasswordError, terminalText: TerminalError -> string): string
  {
    match e
    case CannotRead(cause) => terminalText(cause)
    case Mismatch => "password mismatch"
    case TooShort => "password too short (min: " + Decimal(MinLen) + " bytes)"
    case TooLong => "password too long (max: " + Decimal(MaxLen) + " bytes)"
  }

  /** The next entry of the queue; an exhausted input reads as its end. */
  function Next(pending: seq<Entry>): Entry
  {
    if |pending| == 0 then ReadFailed(EndOfInput) else pending[0]
  }

  /** The queue once its next entry is read. */
  function Rest(pending: seq<Entry>): seq<Entry>
  {
    if |pending| == 0 then [] else pending[1..]
  }

  /** The standard input and output of the program. */
  class Terminal {
    /** The entries the next reads return, in order. */
    var pending: seq<Entry>
    /** Everything printed so far. */
    var shown: string

    constructor (entries: seq<Entry>)
      ensures pending == entries && shown == ""
    {
      pending, shown := entries, "";
    }

    /** `fmt.Print`. */
    method Print(s: string)
      modifies this
      ensures shown == old(shown) + s && pending == old(pending)
    {
      shown := shown + s;
    }

    /** `terminal.ReadPassword(syscall.Stdin)`: the next entry, not echoed. */
    method ReadEntry() returns (e: Entry)
      modifies this
      ensures e == Next(old(pending)) && pending == Rest(old(pending)) && shown == old(shown)
    {
      if |pending| == 0 {
        e := ReadFailed(EndOfInput);
      } else {
        e, pending := pending[0], pending[1..];
      }
    }
  }

  // ---------------------------------------------------------------------
  // What a read returns
  // ---------------------------------------------------------------------

  /** The outcome of reading a password once. */
  function Single(e: Entry): Result<seq<byte>, PasswordError>
  {
    match e
    case ReadFailed(cause) => Failure(CannotRead(cause))
    case Typed(password) => Success(password)
  }

  /** The outcome of reading a password and its confirmation: a read error
      first, then a mismatch, otherwise the first entry. The second entry
      is not read when the first fails. */
  function Confirmed(first: Entry, second: Entry): Result<seq<byte>, PasswordError>
  {
    match first
    case ReadFailed(cause) => Failure(CannotRead(cause))
    case Typed(password1) =>
      match second
      case ReadFailed(cause) => Failure(CannotRead(cause))
      case Typed(password2) =>
        if password1 != password2 then Failure(Mismatch) else Success(password1)
  }

  /** The outcome of reading the password of a new key: a read error or a
      mismatch first, then a password too short, then one too long. */
  function ForCreation(first: Entry, second: Entry): Result<seq<byte>, PasswordError>
  {
    var password :- Confirmed(first, second);
    if |password| < MinLen then Failure(TooShort)
    else if |password| > MaxLen then Failure(TooLong)
    else Success(password)
  }

  /** The prompt for the password of the key called `name`. */
  function KeyPrompt(name: string): string
  {
    "private key password (" + name + "): "
  }

  /** What the confirmation read prints: the first prompt, and after a
      successful first read the end of its line and the second prompt,
      and after a successful second read the end of that line. */
  function ConfirmationShown(prompt: string, confirmationPrompt: string, first: Entry, second: Entry): string
  {
    prompt
    + (if first.Typed? then "\n" + confirmationPrompt + (if second.Typed? then "\n" else "") else "")
  }

  /** The queue after the confirmation read: two entries, or one when the
      first read fails. */
  function ConfirmationRest(pending: seq<Entry>): seq<Entry>
  {
    if Next(pending).Typed? then Rest(Rest(pending)) else Rest(pending)
  }

  // ---------------------------------------------------------------------
  // What the rules promise
  // ---------------------------------------------------------------------

  /** A single read gives the entry typed, or the terminal's error. */
  lemma SingleMeaning(e: Entry)
    ensures Single(e).Success? <==> e.Typed?
    ensures e.Typed? ==> Single(e).value == e.password
    ensures e.ReadFailed? ==> Single(e) == Failure(CannotRead(e.error))
  {
  }

  /** Confirmation succeeds exactly when both reads succeed with the same
      bytes, and then gives those bytes; two different entries are a
      mismatch; a failed read is reported as itself, the first one first. */
  lemma ConfirmedMeaning(first: Entry, second: Entry)
    ensures Confirmed(first, second).Success? <==>
            first.Typed? && second.Typed? && first.password == second.password
    ensures Confirmed(first, second).Success? ==> Confirmed(first, second).value == first.password
    ensures Confirmed(first, second) == Failure(Mismatch) <==>
            first.Typed? && second.Typed? && first.password != second.password
    ensures first.ReadFailed? ==> Confirmed(first, second) == Failure(CannotRead(first.error))
    ensures first.Typed? && second.ReadFailed? ==> Confirmed(first, second) == Failure(CannotRead(second.error))
  {
  }

  /** A new key's password is accepted exactly when both entries were read,
      are equal, and are 4 to 1023 bytes long; it is then the entry
      itself. */
  lemma CreationAccepted(first: Entry, second: Entry)
    ensures ForCreation(first, second).Success? <==>
            first.Typed? && second.Typed? && first.password == second.password
            && MinLen <= |first.password| <= MaxLen
    ensures ForCreation(first, second).Success? ==> ForCreation(first, second).value == first.password
  {
  }

  /** Which error a refused password of a new key gets: the length is only
      checked once the two entries agree, and the lower bound first. */
  lemma CreationRefused(first: Entry, second: Entry)
    ensures ForCreation(first, second) == Failure(TooShort) <==>
            Confirmed(first, second).Success? && |first.password| < MinLen
    ensures ForCreation(first, second) == Failure(TooLong) <==>
            Confirmed(first, second).Success? && |first.password| > MaxLen
    ensures Confirmed(first, second).Failure? ==> ForCreation(first, second) == Confirmed(first, second)
  {
  }

  /** The bounds count bytes: 4 bytes of a multi-byte character are
      enough, and 1023 bytes are the most whatever they spell. */
  lemma CreationBounds(p: seq<byte>)
    ensures ForCreation(Typed(p), Typed(p)) == Success(p) <==> 4 <= |p| <= 1023
  {
  }

  /** The prompt holds the key's name between its fixed parts, so two keys
      never get the same prompt. */
  lemma KeyPromptName(name: string)
    ensures var prompt := KeyPrompt(name);
            |prompt| == |name| + 25
            && prompt[..22] == "private key password ("
            && prompt[22..|prompt| - 3] == name
            && prompt[|prompt| - 3..] == "): "
  {
    var prompt := KeyPrompt(name);
    assert prompt == "private key password (" + name + "): ";
  }

  // ---------------------------------------------------------------------
  // The reads, on the terminal
  // ---------------------------------------------------------------------

  /** `ReadPassword`: prints the prompt, reads one entry, and ends the line
      when the read succeeded. */
  method ReadPassword(t: Terminal, prompt: string) returns (r: Result<seq<byte>, PasswordError>)
    modifies t
    ensures var e := Next(old(t.pending));
            r == Single(e)
            && t.pending == Rest(old(t.pending))
            && t.shown == old(t.shown) + prompt + (if e.Typed? then "\n" else "")
  {
    t.Print(prompt);
    var password := t.ReadEntry();
    if password.ReadFailed? {
      return Failure(CannotRead(password.error));
    }
    t.Print("\n");
    return Success(password.password);
  }

  /** `ReadPasswordWithConfirmation`: reads the password and, if that
      worked, its confirmation, and keeps the first entry when they are the
      same bytes. */
  method ReadPasswordWithConfirmation(t: Terminal, prompt: string, confirmationPrompt: string)
      returns (r: Result<seq<byte>, PasswordError>)
    modifies t
    ensures var first := Next(old(t.pending));
            var second := Next(Rest(old(t.pending)));
            r == Confirmed(first, second)
            && t.pending == ConfirmationRest(old(t.pending))
            && t.shown == old(t.shown) + ConfirmationShown(prompt, confirmationPrompt, first, second)
  {
    t.Print(prompt);
    var password1 := t.ReadEntry();
    if password1.ReadFailed? {
      return Failure(CannotRead(password1.error));
    }
    t.Print("\n");
    t.Print(confirmationPrompt);
    var password2 := t.ReadEntry();
    if password2.ReadFailed? {
      return Failure(CannotRead(password2.error));
    }
    t.Print("\n");
    if password1.password != password2.password {
      return Failure(Mismatch);
    }
    return Success(password1.password);
  }

  /** `ReadPrivateKeyPassword`: one entry, after the key's prompt. */
  method ReadPrivateKeyPassword(t: Terminal, name: string) returns (r: Result<seq<byte>, PasswordError>)
    modifies t
    ensures var e := Next(old(t.pending));
            r == Single(e)
            && t.pending == Rest(old(t.pending))
            && t.shown == old(t.shown) + KeyPrompt(name) + (if e.Typed? then "\n" else "")
  {
    var prompt := "private key password (" + name + "): ";
    r := ReadPassword(t, prompt);
  }

  /** `ReadPrivateKeyPasswordForCreation`: two equal entries after the key's
      prompt and "confirmation: ", of an accepted length. */
  method ReadPrivateKeyPasswordForCreation(t: Terminal, name: string) returns (r: Result<seq<byte>, PasswordError>)
    modifies t
    ensures var first := Next(old(t.pending));
            var second := Next(Rest(old(t.pending)));
            r == ForCreation(first, second)
            && t.pending == ConfirmationRest(old(t.pending))
            && t.shown == old(t.shown) + ConfirmationShown(KeyPrompt(name), "confirmation: ", first, second)
  {
    var minLen := 4;
    var maxLen := 1023;
    var prompt := "private key password (" + name + "): ";
    var password := ReadPasswordWithConfirmation(t, prompt, "confirmation: ");
    if password.Failure? {
      return Failure(password.error);
    }
    if |password.value| < minLen {
      return Failure(TooShort);
    }
    if |password.value| > maxLen {
      return Failure(TooLong);
    }
    return Success(password.value);
  }
}
