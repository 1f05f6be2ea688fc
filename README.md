# ResponseModel envelope and Log placeholder rewrite

A Dafny model of the two helpers in the `com.gblau.common` package:

- `ResponseModel<T>` is a response envelope that holds a Spring `HttpStatus`, a payload and a message. It is built through a `ModelBuilder`. Six preset factories seed the builder with a fixed status: `ok`, `accepted`, `rejected`, `badRequest`, `forbidden` and `internerServerError` (the source spells it this way). `status(s)` seeds it with any non-null status. The builder's four terminal methods each allocate a new envelope: `message`, `build`, `body` and `messageWithBody`. The envelope's setters change one field in place and return the same object.
- `Log` is a static logging facade over slf4j. The part modelled is the private `format` helper's rewrite `message.replace("{}", "%s")`, plus which overload hands what to the slf4j logger.

Files:

- `wrappers.dfy`: `Option` stands for a nullable reference and `Result` for a call that may throw.
- `http.dfy`: the six `HttpStatus` constants used here, with their codes.
- `envelopes.dfy`: the `ResponseModel` class, the `ModelBuilder` datatype, `Status`, the presets, and `OkData` for `ok(T)`.
- `log.dfy`: `ReplacePlaceholders` with its lemmas, and the logger calls the overloads make.

Modelling choices:

- The envelope is mutable. The setters in `ResponseModel.java:27-48` assign their field in place and return the same object, so `ResponseModel` is a class whose setters have `modifies this`.
- `Assert.notNull` throws `IllegalArgumentException` with the given message, and that is the failure `Status` returns for a null status.
- `DefaultBuilder` (`ResponseModel.java:153-158`) holds one field that nothing changes, so it is the datatype constructor `ModelBuilder.DefaultBuilder(status)`, with the terminal methods as its members.
- For the plain overloads only, the no-logger forms make the same logger call as the logger forms on the caller's logger. The `Throwable` overloads do not (see Findings).

`String.format` is passed in as a parameter `render: Formatter<A>`. It returns the formatted text, or `None` where `java.util.Formatter` throws. The stack walk in `innerGet` is replaced by a parameter: the name of the calling class.

## Model

| member | source | states |
|---|---|---|
| `Http.HttpStatus.Value` | src/main/java/com/gblau/common/ResponseModel.java:50-106 | every status used has a code in the 200..599 range |
| `Http.ValueIsInjective` | src/main/java/com/gblau/common/ResponseModel.java:50-106 | two statuses with the same code are the same status |
| `Envelopes.ResponseModel.constructor` | src/main/java/com/gblau/common/ResponseModel.java:17-21 | the new object's fields are exactly the three arguments |
| `Envelopes.ResponseModel.GetStatus` | src/main/java/com/gblau/common/ResponseModel.java:23-25 | returns the status most recently stored in the object |
| `Envelopes.ResponseModel.GetData` | src/main/java/com/gblau/common/ResponseModel.java:32-34 | returns the payload most recently stored, the object itself |
| `Envelopes.ResponseModel.GetMessage` | src/main/java/com/gblau/common/ResponseModel.java:41-43 | returns the message most recently stored |
| `Envelopes.ResponseModel.SetStatus` | src/main/java/com/gblau/common/ResponseModel.java:23-30 | returns this same object; the status getter then returns the new value; data and message are unchanged |
| `Envelopes.ResponseModel.SetData` | src/main/java/com/gblau/common/ResponseModel.java:32-39 | returns this same object; the data getter then returns the new value; status and message are unchanged |
| `Envelopes.ResponseModel.SetMessage` | src/main/java/com/gblau/common/ResponseModel.java:41-48 | returns this same object; the message getter then returns the new value; status and data are unchanged |
| `Envelopes.Status` | src/main/java/com/gblau/common/ResponseModel.java:108-116 | fails exactly when the status is null, with IllegalArgumentException and the source's message; otherwise the builder carries that status |
| `Envelopes.Ok` | src/main/java/com/gblau/common/ResponseModel.java:50-56 | is status(OK) and its code is 200 |
| `Envelopes.Accepted` | src/main/java/com/gblau/common/ResponseModel.java:68-74 | is status(ACCEPTED) and its code is 202 |
| `Envelopes.Rejected` | src/main/java/com/gblau/common/ResponseModel.java:76-82 | is status(NOT_ACCEPTABLE) and its code is 406 |
| `Envelopes.BadRequest` | src/main/java/com/gblau/common/ResponseModel.java:84-90 | is status(BAD_REQUEST) and its code is 400 |
| `Envelopes.Forbidden` | src/main/java/com/gblau/common/ResponseModel.java:92-98 | is status(FORBIDDEN) and its code is 403 |
| `Envelopes.InternerServerError` | src/main/java/com/gblau/common/ResponseModel.java:100-106 | is status(INTERNAL_SERVER_ERROR) and its code is 500 |
| `Envelopes.OkData` | src/main/java/com/gblau/common/ResponseModel.java:58-66 | a new envelope (200, the given data itself, no message), proved through ok() and body() |
| `Envelopes.ModelBuilder.Message` | src/main/java/com/gblau/common/ResponseModel.java:160-163 | a new envelope with the builder's status, no data, the given message |
| `Envelopes.ModelBuilder.Build` | src/main/java/com/gblau/common/ResponseModel.java:165-168 | a new envelope with the builder's status and nothing else, proved through body(null) |
| `Envelopes.ModelBuilder.Body` | src/main/java/com/gblau/common/ResponseModel.java:170-173 | a new envelope with the builder's status, the given data itself, no message |
| `Envelopes.ModelBuilder.MessageWithBody` | src/main/java/com/gblau/common/ResponseModel.java:175-178 | a new envelope with the builder's status, the given data and the given message, independently of each other |
| `Envelopes.BuildTwice` | src/main/java/com/gblau/common/ResponseModel.java:153-178 | two ok().build() results are distinct objects, both built as (200, null, null); a setter on one changes only that one's message and leaves the other unchanged |
| `Envelopes.PresetScenarios` | src/main/java/com/gblau/common/ResponseModel.java:64-116 | status(FORBIDDEN).message("no access") is (403, null, "no access"); ok(42) is (200, 42, null) |
| `Envelopes.SetMessageAfterBody` | src/main/java/com/gblau/common/ResponseModel.java:45-66 | ok(d) followed by setMessage(m) holds the fields that ok().messageWithBody(d, m) is built with |
| `Log.ReplacePlaceholders` | src/main/java/com/gblau/common/Log.java:192-194 | the rewrite keeps the template's length |
| `Log.ReplaceAt` | src/main/java/com/gblau/common/Log.java:193 | each position of the rewrite is '%' where a "{}" starts, 's' where one ends, and the original character everywhere else |
| `Log.ReplaceMatchesReference` | src/main/java/com/gblau/common/Log.java:193 | the rewrite equals the position-by-position reference definition |
| `Log.OutsideKept` | src/main/java/com/gblau/common/Log.java:193 | characters outside the "{}" markers keep their value and position |
| `Log.UnchangedIffNoPlaceholder` | src/main/java/com/gblau/common/Log.java:193 | the rewrite returns its input unchanged if and only if the input holds no "{}" |
| `Log.OutputHasNoPlaceholder` | src/main/java/com/gblau/common/Log.java:193 | the rewrite's output holds no "{}", including none formed across a replacement |
| `Log.ReplaceIdempotent` | src/main/java/com/gblau/common/Log.java:193 | rewriting twice gives the same as rewriting once |
| `Log.SpecifierCount` | src/main/java/com/gblau/common/Log.java:186-194 | counted as text, the output's "%s" occurrences are the input's "{}" occurrences plus the "%s" the input already held |
| `Log.NoPlaceholderIffCountZero` | src/main/java/com/gblau/common/Log.java:193 | a template holds no "{}" if and only if its "{}" count is zero |
| `Log.ReplaceExamples` | src/main/java/com/gblau/common/Log.java:193 | "{}{}" becomes "%s%s", "{{}}" becomes "{%s}", "count: {}" becomes "count: %s", "done" is unchanged |
| `Log.InnerGet` | src/main/java/com/gblau/common/Log.java:200-203 | the logger is the one named after the calling class (given by name instead of by a stack walk) |
| `Log.Format` | src/main/java/com/gblau/common/Log.java:192-194 | String.format receives the message rewritten position by position as the reference rewrite says (same length, no "{}", textual "%s" count equal to the "{}" count plus the "%s" already there), plus the arguments; a message without "{}" reaches it unchanged |
| `Log.LogWith` | src/main/java/com/gblau/common/Log.java:159-161 | the given logger receives, at the call's level, the template and arguments as they are (likewise at lines 49-51, 71-73, 93-95, 115-117) |
| `Log.LogFrom` | src/main/java/com/gblau/common/Log.java:149-151 | the logger named after the caller receives the template and arguments as they are (likewise at lines 39-41, 61-63, 83-85, 105-107) |
| `Log.ThrowableWith` | src/main/java/com/gblau/common/Log.java:182-184 | logs the formatted text with the throwable on the given logger exactly when formatting succeeds (likewise at lines 137-139) |
| `Log.ThrowableFrom` | src/main/java/com/gblau/common/Log.java:170-172 | as written: logs exactly when both format passes succeed, the second one on the already formatted text with no arguments, and the logged text is that second result; on the caller's logger with the throwable (likewise at lines 126-128) |
| `Log.ThrowableFromIntended` | src/main/java/com/gblau/common/Log.java:119-128 | corrected: logs the once-formatted text with the throwable on the caller's logger exactly when formatting succeeds |
| `Log.PlainFormsPassThrough` | src/main/java/com/gblau/common/Log.java:39-161 | the overloads without a Throwable hand the logger the template as given, which differs from the rewritten template whenever it holds a "{}" |
| `Log.ThrowableFormsRewrite` | src/main/java/com/gblau/common/Log.java:130-194 | the Throwable overloads that take a logger give String.format the template rewritten position by position as the reference rewrite says (same length, no "{}", textual "%s" count equal to the "{}" count plus the "%s" already there), plus the arguments as given, and log the result with the throwable |
| `Log.ThrowableFromReformats` | src/main/java/com/gblau/common/Log.java:119-128 | as written, the no-logger Throwable overload throws for template "value: {}" and argument "{}", while the logger form logs "value: {}" |
| `Log.ThrowableFromIntendedFormatsOnce` | src/main/java/com/gblau/common/Log.java:119-128 | corrected, the no-logger Throwable overload formats once, so on the input where the as-written one throws it logs "value: {}" |

## Findings

| source | as written | input that shows it | evidently intended | confidence | as-written member | corrected member |
|---|---|---|---|---|---|---|
| src/main/java/com/gblau/common/Log.java:126-128 | `warn(innerGet(), format(format, arguments), e)` resolves to `warn(Logger, String, Throwable, Object...)` with no arguments, the most specific applicable overload. The text is already formatted, and it is rewritten and run through `String.format` a second time. The same holds for `error(String, Throwable, Object...)` at lines 170-172. | `Log.warn(e, "value: {}", "{}")`: the first pass gives "value: {}". The second pass formats "value: %s" with no argument, which throws MissingFormatArgumentException. An argument text containing '%', such as "100%", likewise throws. | format once and log the text with the throwable, as the logger-taking overloads do | high; not executed | `Log.ThrowableFromReformats` | `Log.ThrowableFromIntendedFormatsOnce` |

## Left out

- `String.format` is a parameter (`render`), not modelled: the conversion syntax of java.util.Formatter and the `toString()` of arbitrary arguments are outside the model. The model states what template and arguments it receives.
- `Log.innerGet` walks the call stack (`getStackTrace()[3]`). It is replaced by the calling class's name, given as a parameter.
- A `%` just before a `{}` combines with the rewritten marker: `"%{}"` becomes `"%%s"`, which java.util.Formatter reads as an escaped `%` and a literal `s`. The counts proved are textual, so the number of conversions String.format performs can differ from the number of `{}`.
- `Log.get(Class)`, `Log.get(String)` and the slf4j loggers are external. A logger is a value known by its name, and a log call is the record of which slf4j method it would invoke with what.
- The fourteen Java overloads are folded into four functions that take a `Level`. The Throwable forms exist only for warn and error, which `HasThrowableForms` states. The parameter order of `warn(Throwable, String, …)` against `error(String, Throwable, …)` is not represented.
- A null template, a null varargs array and `null` elements inside it are not modelled.
- `HttpStatus` holds only the six constants that the presets use. `status(s)` is generic over that datatype. Spring's other constants and their reason phrases are not modelled.
- Java generics and raw types are not tracked: `message(String)` and `build()` produce an envelope of any payload type with no data.
- `SessionTestController` is framework demonstration code and is not part of this model.
