/**
 * The logging facade: the rewrite of slf4j-style "{}" markers into
 * java.util.Formatter "%s" conversions, and what each overload hands to the
 * slf4j logger.
 */
module Log {
  import opened Wrappers

  /** The marker a template uses for each argument. */
  const Placeholder: string := "{}"

  /** The Formatter conversion that takes its place. */
  const Specifier: string := "%s"

  /**
   * The number of positions at which p starts in s. Neither "{}" nor "%s" can
   * overlap itself, so for them this is also the number of matches a
   * left-to-right, non-overlapping scan such as String.replace finds.
   */
  function Count(s: string, p: string): (n: nat)
    decreases |s|
  {
    if |s| == 0 || |s| < |p| then 0
    else (if s[..|p|] == p then 1 else 0) + Count(s[1..], p)
  }

  /** A "{}" starts at position i of s. */
  predicate OpensAt(s: string, i: int)
  {
    0 <= i && i + 1 < |s| && s[i] == '{' && s[i + 1] == '}'
  }

  /** A "{}" ends at position i of s. */
  predicate ClosesAt(s: string, i: int)
  {
    0 < i < |s| && s[i - 1] == '{' && s[i] == '}'
  }

  predicate NoPlaceholder(s: string)
  {
    forall i :: 0 <= i < |s| ==> !OpensAt(s, i)
  }

  /**
   * message.replace("{}", "%s"): scans from the left, replaces each "{}" it
   * meets and resumes the scan after it.
   */
  function ReplacePlaceholders(message: string): (r: string)
    ensures |r| == |message|
  {
    if |message| < 2 then message
    else if message[0] == '{' && message[1] == '}' then Specifier + ReplacePlaceholders(message[2..])
    else [message[0]] + ReplacePlaceholders(message[1..])
  }

  /** Reference definition of the rewrite, one position at a time. */
  function ExpectedAt(s: string, i: int): (c: char)
    requires 0 <= i < |s|
  {
    if OpensAt(s, i) then '%' else if ClosesAt(s, i) then 's' else s[i]
  }

  /** Each position of the rewrite holds what the reference definition says. */
  lemma {:induction false} ReplaceAt(s: string, i: int)
    requires 0 <= i < |s|
    ensures ReplacePlaceholders(s)[i] == ExpectedAt(s, i)
  {
    if |s| < 2 {
    } else if s[0] == '{' && s[1] == '}' {
      if i >= 2 {
        var t := s[2..];
        ReplaceAt(t, i - 2);
        assert OpensAt(t, i - 2) == OpensAt(s, i);
        assert ClosesAt(t, i - 2) == ClosesAt(s, i);
      }
    } else if i >= 1 {
      var t := s[1..];
      ReplaceAt(t, i - 1);
      assert OpensAt(t, i - 1) == OpensAt(s, i);
      assert ClosesAt(t, i - 1) == ClosesAt(s, i);
    }
  }

  /** The rewrite agrees with the reference definition everywhere. */
  lemma ReplaceMatchesReference(s: string)
    ensures |ReplacePlaceholders(s)| == |s|
    ensures forall i :: 0 <= i < |s| ==> ReplacePlaceholders(s)[i] == ExpectedAt(s, i)
  {
    forall i | 0 <= i < |s|
      ensures ReplacePlaceholders(s)[i] == ExpectedAt(s, i)
    {
      ReplaceAt(s, i);
    }
  }

  /** Every character outside a "{}" keeps its position and value. */
  lemma OutsideKept(s: string, i: int)
    requires 0 <= i < |s| && !OpensAt(s, i) && !ClosesAt(s, i)
    ensures ReplacePlaceholders(s)[i] == s[i]
  {
    ReplaceAt(s, i);
  }

  /** The rewrite leaves a template unchanged exactly when it holds no "{}". */
  lemma UnchangedIffNoPlaceholder(s: string)
    ensures ReplacePlaceholders(s) == s <==> NoPlaceholder(s)
  {
    var r := ReplacePlaceholders(s);
    if NoPlaceholder(s) {
      forall i | 0 <= i < |s|
        ensures r[i] == s[i]
      {
        ReplaceAt(s, i);
        assert !OpensAt(s, i);
        if i > 0 {
          assert !OpensAt(s, i - 1);
        }
      }
    }
    if r == s {
      forall i | 0 <= i < |s|
        ensures !OpensAt(s, i)
      {
        ReplaceAt(s, i);
      }
    }
  }

  /** No "{}" survives the rewrite, nor is one formed by it. */
  lemma OutputHasNoPlaceholder(s: string)
    ensures NoPlaceholder(ReplacePlaceholders(s))
  {
    var r := ReplacePlaceholders(s);
    forall i | 0 <= i < |r|
      ensures !OpensAt(r, i)
    {
      if i + 1 < |r| {
        ReplaceAt(s, i);
        ReplaceAt(s, i + 1);
      }
    }
  }

  /** Rewriting a second time changes nothing. */
  lemma ReplaceIdempotent(s: string)
    ensures ReplacePlaceholders(ReplacePlaceholders(s)) == ReplacePlaceholders(s)
  {
    OutputHasNoPlaceholder(s);
    UnchangedIffNoPlaceholder(ReplacePlaceholders(s));
  }

  /** A leading character that cannot start p does not add to p's count. */
  lemma CountSkip(c: char, t: string, p: string)
    requires |p| == 2 && c != p[0]
    ensures Count([c] + t, p) == Count(t, p)
  {
    var s := [c] + t;
    assert s[1..] == t;
    if |s| >= 2 {
      assert s[..2][0] == c;
    }
  }

  /**
   * Counted as text, the rewritten template holds one "%s" per "{}" of the original, on top of
   * the "%s" the original already held.
   */
  lemma {:induction false} SpecifierCount(s: string)
    ensures Count(ReplacePlaceholders(s), Specifier) == Count(s, Placeholder) + Count(s, Specifier)
  {
    var r := ReplacePlaceholders(s);
    if |s| < 2 {
    } else if s[0] == '{' && s[1] == '}' {
      var t := s[2..];
      SpecifierCount(t);
      var rt := ReplacePlaceholders(t);
      assert r == Specifier + rt;
      assert r[..2] == Specifier;
      assert r[1..] == ['s'] + rt;
      CountSkip('s', rt, Specifier);
      assert s[..2] == Placeholder;
      assert s[1..] == ['}'] + t;
      CountSkip('}', t, Placeholder);
      CountSkip('}', t, Specifier);
    } else {
      var t := s[1..];
      SpecifierCount(t);
      var rt := ReplacePlaceholders(t);
      ReplaceAt(t, 0);
      assert r == [s[0]] + rt;
      assert r[1..] == rt;
      assert r[..2] == [s[0], rt[0]];
      assert s[..2] == [s[0], t[0]];
    }
  }

  /** Having no "{}" is the same as a "{}" count of zero. */
  lemma {:induction false} NoPlaceholderIffCountZero(s: string)
    ensures NoPlaceholder(s) <==> Count(s, Placeholder) == 0
  {
    if |s| >= 2 {
      var t := s[1..];
      NoPlaceholderIffCountZero(t);
      assert s[..2] == Placeholder <==> OpensAt(s, 0);
      assert forall i :: 0 <= i < |t| ==> (OpensAt(t, i) <==> OpensAt(s, i + 1));
      if NoPlaceholder(t) && !OpensAt(s, 0) {
        forall i | 0 <= i < |s|
          ensures !OpensAt(s, i)
        {
          if i > 0 {
            assert !OpensAt(t, i - 1);
          }
        }
      }
    }
  }

  /** Worked cases: adjacent markers, a marker inside braces, a template without markers. */
  lemma ReplaceExamples()
    ensures ReplacePlaceholders("{}{}") == "%s%s"
    ensures ReplacePlaceholders("{{}}") == "{%s}"
    ensures ReplacePlaceholders("count: {}") == "count: %s"
    ensures ReplacePlaceholders("done") == "done"
  {
    ReplaceMatchesReference("count: {}");
  }

  datatype Level = Trace | Debug | Info | Warn | Error

  /** Only warn and error have overloads that take a Throwable. */
  predicate HasThrowableForms(level: Level)
  {
    level == Warn || level == Error
  }

  /** An slf4j logger handle, known by its name. */
  datatype Logger = Logger(name: string)

  /** One call on an slf4j logger, with arguments of type A and a throwable of type E. */
  datatype SinkCall<A, E> =
    | Parameterized(logger: Logger, level: Level, template: string, arguments: seq<A>)
    | WithThrowable(logger: Logger, level: Level, text: string, thrown: E)

  /**
   * The String.format primitive: a template and arguments give a text, or
   * None where java.util.Formatter throws an IllegalFormatException.
   */
  type Formatter<!A> = (string, seq<A>) -> Option<string>

  /** innerGet: the logger named after the calling class, given here by its name. */
  function InnerGet(caller: string): (log: Logger)
    ensures log.name == caller
  {
    Logger(caller)
  }

  /**
   * The private format helper: rewrite the markers, then hand the result to
   * String.format. What String.format receives holds, at each position, what
   * the reference rewrite puts there; it has the message's length, no "{}", and
   * as many textual "%s" as the message has "{}" plus the "%s" the message
   * already held. A message without "{}" reaches it unchanged.
   */
  function Format<A>(message: string, arguments: seq<A>, render: Formatter<A>): (r: Option<string>)
    ensures NoPlaceholder(message) ==> r == render(message, arguments)
    ensures exists template ::
      && |template| == |message|
      && (forall i :: 0 <= i < |message| ==> template[i] == ExpectedAt(message, i))
      && NoPlaceholder(template)
      && Count(template, Specifier) == Count(message, Placeholder) + Count(message, Specifier)
      && r == render(template, arguments)
  {
    ReplaceMatchesReference(message);
    UnchangedIffNoPlaceholder(message);
    OutputHasNoPlaceholder(message);
    SpecifierCount(message);
    render(ReplacePlaceholders(message), arguments)
  }

  /** trace/debug/info/warn/error(Logger, String, Object...): the given logger receives template and arguments as they are. */
  function LogWith<A, E>(level: Level, log: Logger, format: string, arguments: seq<A>): (r: SinkCall<A, E>)
    ensures r.Parameterized? && r.logger == log && r.level == level
    ensures r.template == format && r.arguments == arguments
  {
    Parameterized(log, level, format, arguments)
  }

  /** trace/debug/info/warn/error(String, Object...): the same, on the logger named after the caller. */
  function LogFrom<A, E>(level: Level, caller: string, format: string, arguments: seq<A>): (r: SinkCall<A, E>)
    ensures r.Parameterized? && r.logger.name == caller && r.level == level
    ensures r.template == format && r.arguments == arguments
  {
    LogWith(level, InnerGet(caller), format, arguments)
  }

  /**
   * warn/error(Logger, String, Throwable, Object...): the text is formatted here
   * and logged with the throwable; None when String.format throws.
   */
  function ThrowableWith<A, E>(level: Level, log: Logger, format: string, e: E, arguments: seq<A>,
                               render: Formatter<A>): (r: Option<SinkCall<A, E>>)
    requires HasThrowableForms(level)
    ensures r.None? <==> Format(format, arguments, render).None?
    ensures r.Some? ==> && r.value.WithThrowable? && r.value.logger == log && r.value.level == level
                        && r.value.thrown == e && Format(format, arguments, render) == Some(r.value.text)
  {
    match Format(format, arguments, render)
    case None => None
    case Some(text) => Some(WithThrowable(log, level, text, e))
  }

  /**
   * warn(Throwable, String, Object...) and error(String, Throwable, Object...)
   * as written: the formatted text is passed on to the overload above, which
   * Java's overload resolution picks with an empty argument list, so that text
   * is rewritten and formatted a second time.
   */
  function ThrowableFrom<A, E>(level: Level, caller: string, e: E, format: string, arguments: seq<A>,
                               render: Formatter<A>): (r: Option<SinkCall<A, E>>)
    requires HasThrowableForms(level)
    ensures r.None? <==> (|| Format(format, arguments, render).None?
                          || Format(Format(format, arguments, render).value, [], render).None?)
    ensures r.Some? ==> && r.value.WithThrowable? && r.value.logger.name == caller && r.value.level == level
                        && r.value.thrown == e
                        && exists text :: Format(format, arguments, render) == Some(text)
                                          && Format(text, [], render) == Some(r.value.text)
  {
    match Format(format, arguments, render)
    case None => None
    case Some(text) => ThrowableWith(level, InnerGet(caller), text, e, [], render)
  }

  /** The same overloads as intended: formatted once, on the caller's logger. */
  function ThrowableFromIntended<A, E>(level: Level, caller: string, e: E, format: string, arguments: seq<A>,
                                       render: Formatter<A>): (r: Option<SinkCall<A, E>>)
    requires HasThrowableForms(level)
    ensures r.None? <==> Format(format, arguments, render).None?
    ensures r.Some? ==> r.value == WithThrowable(Logger(caller), level, Format(format, arguments, render).value, e)
  {
    ThrowableWith(level, InnerGet(caller), format, e, arguments, render)
  }

  /**
   * The plain overloads never rewrite: the logger receives the template as
   * given, which differs from the rewritten one whenever it holds a "{}".
   */
  lemma PlainFormsPassThrough<A, E>(level: Level, caller: string, format: string, arguments: seq<A>)
    ensures LogFrom<A, E>(level, caller, format, arguments).template == format
    ensures !NoPlaceholder(format) ==> LogFrom<A, E>(level, caller, format, arguments).template != ReplacePlaceholders(format)
  {
    UnchangedIffNoPlaceholder(format);
  }

  /**
   * The Throwable overloads with a logger hand String.format the rewritten
   * template, position by position as the reference rewrite gives it: the same
   * length, no "{}" left, and as many textual "%s" as "{}" plus the "%s" already
   * there, together with the arguments as given; a result that formats is
   * logged with the throwable.
   */
  lemma ThrowableFormsRewrite<A, E>(level: Level, log: Logger, format: string, e: E, arguments: seq<A>,
                                    render: Formatter<A>)
    requires HasThrowableForms(level)
    ensures exists template ::
      && |template| == |format|
      && (forall i :: 0 <= i < |format| ==> template[i] == ExpectedAt(format, i))
      && NoPlaceholder(template)
      && Count(template, Specifier) == Count(format, Placeholder) + Count(format, Specifier)
      && ThrowableWith(level, log, format, e, arguments, render)
         == match render(template, arguments)
            case None => None
            case Some(text) => Some(WithThrowable(log, level, text, e))
  {
    var template := ReplacePlaceholders(format);
    ReplaceMatchesReference(format);
    OutputHasNoPlaceholder(format);
    SpecifierCount(format);
    assert ThrowableWith(level, log, format, e, arguments, render)
           == match render(template, arguments)
              case None => None
              case Some(text) => Some(WithThrowable(log, level, text, e));
  }

  /**
   * As written, an argument whose text is "{}" breaks the no-logger overload.
   * Given what String.format does here (it substitutes "{}" for the "%s", and
   * it throws MissingFormatArgumentException for a "%s" with no argument), the
   * call throws while the overload with the caller's logger logs "value: {}".
   */
  lemma ThrowableFromReformats<E>(level: Level, caller: string, e: E, render: Formatter<string>)
    requires HasThrowableForms(level)
    requires render("value: %s", ["{}"]) == Some("value: {}")
    requires render("value: %s", []) == None
    ensures ThrowableFrom(level, caller, e, "value: {}", ["{}"], render) == None
    ensures ThrowableWith(level, InnerGet(caller), "value: {}", e, ["{}"], render)
            == Some(WithThrowable(Logger(caller), level, "value: {}", e))
  {
    ReplaceMatchesReference("value: {}");
    assert ReplacePlaceholders("value: {}") == "value: %s";
  }

  /**
   * Intended: the no-logger Throwable overloads format exactly once, so on the
   * input where the as-written overload throws they log "value: {}".
   */
  lemma ThrowableFromIntendedFormatsOnce<E>(level: Level, caller: string, e: E, render: Formatter<string>)
    requires HasThrowableForms(level)
    requires render("value: %s", ["{}"]) == Some("value: {}")
    ensures ThrowableFromIntended(level, caller, e, "value: {}", ["{}"], render)
            == Some(WithThrowable(Logger(caller), level, "value: {}", e))
  {
    ReplaceMatchesReference("value: {}");
    assert ReplacePlaceholders("value: {}") == "value: %s";
    assert Format("value: {}", ["{}"], render) == Some("value: {}");
  }
}
