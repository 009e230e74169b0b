/**
 * The logic of `SearchInput` (src/components/SearchInput.tsx, lines 10-51): the
 * ordered validation of a username, and the component's two state slots, the
 * typed `text` and the local `validationError`.
 */
module SearchInput {
  import opened Maybe
  import opened Text

  const EMPTY_MESSAGE := "Please enter a username"
  const TOO_SHORT_MESSAGE := "Username must be at least 2 characters"
  const CHARSET_MESSAGE := "Username can only contain letters, numbers, dashes and underscores"

  /** The character class `[a-zA-Z0-9_-]`. */
  predicate IsLoginChar(c: char) {
    ('a' <= c <= 'z') || ('A' <= c <= 'Z') || ('0' <= c <= '9') || c == '_' || c == '-'
  }

  /** `/^[a-zA-Z0-9_-]+$/.test(s)`. */
  predicate IsLogin(s: string) {
    s != [] && forall i :: 0 <= i < |s| ==> IsLoginChar(s[i])
  }

  /**
   * `validateInput(input)`: `None` is `null`. The checks run in order on the
   * trimmed input, so exactly one message, or none, is the answer; lengths are
   * JavaScript lengths, in UTF-16 code units.
   */
  function ValidateInput(input: string): (r: Option<string>)
    ensures r == Some(EMPTY_MESSAGE) <==> Trim(input) == []
    ensures r == Some(TOO_SHORT_MESSAGE) <==> Utf16Length(Trim(input)) == 1
    ensures r == Some(CHARSET_MESSAGE) <==> Utf16Length(Trim(input)) >= 2 && !IsLogin(Trim(input))
    ensures r == None <==> Utf16Length(Trim(input)) >= 2 && IsLogin(Trim(input))
  {
    var t := Trim(input);
    if input == [] || Utf16Length(t) == 0 then Some(EMPTY_MESSAGE)
    else if Utf16Length(t) < 2 then Some(TOO_SHORT_MESSAGE)
    else if !IsLogin(t) then Some(CHARSET_MESSAGE)
    else None
  }

  /** Validating the trimmed text is validating the text: `trim` is idempotent. */
  lemma ValidateTrimmed(s: string)
    ensures ValidateInput(Trim(s)) == ValidateInput(s)
  {
    TrimIdempotent(s);
  }

  /** An accepted username is at least two characters of the class, with no white space left around it. */
  lemma AcceptedIsLogin(s: string)
    requires ValidateInput(s) == None
    ensures IsLogin(Trim(s)) && |Trim(s)| >= 2
  {
    var t := Trim(s);
    assert Utf16Length(t) >= 2 && IsLogin(t);
    LoginLength(t);
  }

  /** A username of the class has no character outside the Basic Multilingual Plane. */
  lemma LoginLength(t: string)
    requires IsLogin(t)
    ensures Utf16Length(t) == |t|
  {
    forall i | 0 <= i < |t|
      ensures t[i] as int < 0x1_0000
    {
      assert IsLoginChar(t[i]);
    }
  }

  /** Every string of `ss` is a username the validation accepts. */
  predicate AllAccepted(ss: seq<string>) {
    forall i :: 0 <= i < |ss| ==> IsLogin(ss[i]) && |ss[i]| >= 2
  }

  /**
   * What `handleSearch` leaves in the message slot and in the log of `onPress`
   * calls: the message of a rejected trimmed text; or no message, and the
   * trimmed text passed on when there is an `onPress`.
   */
  function AfterSearch(text: string, searched: seq<string>, hasOnPress: bool): (string, seq<string>) {
    var trimmed := Trim(text);
    var e := ValidateInput(trimmed);
    if e.Some? then (e.value, searched)
    else ("", if hasOnPress then searched + [trimmed] else searched)
  }

  /**
   * `onPress` is called at most once per search, only with the trimmed text and
   * only when it passes validation, and that text is then a username of at
   * least two characters of the class; otherwise the message set is the one
   * validation returned, never empty.
   */
  lemma SearchPassesOnlyAccepted(text: string, searched: seq<string>, hasOnPress: bool)
    ensures var (message, searched') := AfterSearch(text, searched, hasOnPress);
      && (message == "" <==> ValidateInput(Trim(text)) == None)
      && (message != "" ==> Some(message) == ValidateInput(Trim(text)) && searched' == searched)
      && (searched' != searched ==> searched' == searched + [Trim(text)] && hasOnPress)
      && (message == "" && hasOnPress ==> searched' == searched + [Trim(text)] && IsLogin(Trim(text)) && |Trim(text)| >= 2)
  {
    if ValidateInput(Trim(text)) == None {
      var t := Trim(text);
      TrimIdempotent(text);
      assert Trim(t) == t;
      AcceptedIsLogin(t);
    }
  }

  /** Searches that went out keep being accepted usernames. */
  lemma SearchesStayAccepted(text: string, searched: seq<string>, hasOnPress: bool)
    requires AllAccepted(searched)
    ensures AllAccepted(AfterSearch(text, searched, hasOnPress).1)
  {
    SearchPassesOnlyAccepted(text, searched, hasOnPress);
    var ss := AfterSearch(text, searched, hasOnPress).1;
    if ss != searched {
      AcceptedAppends(searched, Trim(text));
    }
  }

  lemma AcceptedAppends(ss: seq<string>, t: string)
    requires AllAccepted(ss)
    requires IsLogin(t) && |t| >= 2
    ensures AllAccepted(ss + [t])
  {
    forall i | 0 <= i < |ss + [t]|
      ensures IsLogin((ss + [t])[i]) && |(ss + [t])[i]| >= 2
    {
      if i < |ss| {
        assert (ss + [t])[i] == ss[i];
      }
    }
  }

  class SearchInput {
    /** Whether the `onPress` prop was given, and the `error` prop (`None` when absent). */
    const hasOnPress: bool
    const error: Option<string>
    var text: string
    var validationError: string
    /** The arguments `onPress` was called with, in order. */
    var searched: seq<string>

    /** Every search that went out was an accepted username. */
    predicate Valid()
      reads this
    {
      AllAccepted(searched)
    }

    constructor (hasOnPress: bool, error: Option<string>)
      ensures this.hasOnPress == hasOnPress && this.error == error
      ensures text == "" && validationError == "" && searched == []
      ensures Valid()
    {
      this.hasOnPress := hasOnPress;
      this.error := error;
      text := "";
      validationError := "";
      searched := [];
    }

    /**
     * `handleSearch()`: a rejected text sets the message and calls nothing; an
     * accepted one clears the message and calls `onPress` with the trimmed text.
     */
    method HandleSearch()
      requires Valid()
      modifies this
      ensures Valid()
      ensures text == old(text)
      ensures (validationError, searched) == AfterSearch(old(text), old(searched), hasOnPress)
    {
      SearchesStayAccepted(text, searched, hasOnPress);
      var trimmedText := Trim(text);
      var e := ValidateInput(trimmedText);
      if e.Some? {
        validationError := e.value;
        return;
      }
      validationError := "";
      if hasOnPress {
        searched := searched + [trimmedText];
      }
    }

    /** `handleTextChange(newText)`: the text is replaced and any message cleared. */
    method HandleTextChange(newText: string)
      requires Valid()
      modifies this
      ensures Valid()
      ensures text == newText && validationError == "" && searched == old(searched)
    {
      text := newText;
      if validationError != "" {
        validationError := "";
      }
    }

    /** `validationError || error`: the local message when there is one, else the prop. */
    function DisplayError(): (r: Option<string>)
      reads this
      ensures validationError != "" ==> r == Some(validationError)
      ensures validationError == "" ==> r == error
    {
      if validationError != "" then Some(validationError) else error
    }
  }
}
