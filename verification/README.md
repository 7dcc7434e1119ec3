# flexmock's expectation engine, in Dafny

This project models the core of flexmock, a Python mocking library. In flexmock, a test
wraps an object in a proxy with `flexmock(obj)` and declares expectations on it:
`should_receive("m")`, `should_call("m")` for spies, and `new_instances(...)`. Each
expectation is then refined: `with_args`, `and_return`, `and_raise`, `and_yield`,
`one_by_one`, `replace_with`, `when`, `ordered`, `times`, `once`, `twice`, `never`,
`at_least` and `at_most`. The library patches the real object, answers calls from the
matching expectation, checks call counts and call order, and at teardown puts every
patched attribute back and reports unmet counts.

Three revisions of the library are modelled side by side, selected by `Revision`:

- `Current` is `src/flexmock/_api.py`.
- `Earlier` is `src/flexmock/api.py`.
- `Oldest` is `flexmock/api.py`.

Logic the revisions share is written once. Functions take the revision where the
behaviour or the wording differs.

The Python object graph is a `World`, a map from object ids to `Obj` records. Each record
holds an own attribute dictionary, a kind (class, instance or module), the kind of
`__dict__` it has, and its method resolution order. `setattr`, `delattr` and attribute
lookup are functions on that map.

The global `FlexmockContainer` is a `Container`. It holds:

- an arena of expectations;
- the per-proxy lists of expectation ids, in insertion order;
- the ordered-call queue and the last popped expectation;
- the properties to delete at teardown.

Everything else Python provides is passed in as an oracle, never assumed. An `Oracle`
covers `isinstance` and `re.search`. A `Host` adds:

- calling a function;
- constructing and printing an exception;
- running a `when()` guard and describing it.

An `Inspector` reads a function's signature.

One quirk of the source is kept exactly as written. When the current revision reports a
message mismatch at `src/flexmock/_api.py:413-415`, the "Expected message" line shows the
raised message and the "Received message" line shows the expected one.
`Dispatch.CheckMessage` reproduces that order.

The modules follow the library's structure:

| module | what it holds |
|---|---|
| `Values`, `Errors`, `Text` | Python values and argument sets, the exception kinds, `str`/`repr` and call rendering, name mangling |
| `CallCount` | the `times`/`at_least`/`at_most` constraint and `_verify_number_of_calls` |
| `ResultQueue` | `ReturnValue`, the result queue, `one_by_one` and the rotation on each call |
| `Matcher` | argument matching and keyword normalisation |
| `Signature` | `_verify_signature_match` |
| `Expectations` | the `Expectation` record and its builder methods, and `_verify` |
| `Namespace` | attribute lookup, `_setattr`, method-type detection and `_reset` |
| `Registry` | `FlexmockContainer` |
| `Dispatch` | the mock method installed on the patched object: lookup, counting, answering, pass-through and raise checks |
| `Proxies` | `should_receive`, `should_call`, `new_instances`, partial mocks and API attachment |
| `Teardown` | `flexmock_teardown` |

## Model

| member | source | states |
|---|---|---|
| CallCount.Times | src/flexmock/_api.py:897-927 | `times(n)` writes `n` into exactly the slot the current modifier selects; the modifier and the other two slots are unchanged |
| CallCount.AddAtLeast | src/flexmock/_api.py:1030-1034 | `at_least()` succeeds iff no lower bound is set or pending and no `at_most()` is waiting for its count; success only switches the modifier; a refusal is a FlexmockError |
| CallCount.AddAtMost | src/flexmock/_api.py:1059-1063 | the mirror image for `at_most()`: succeeds iff no upper bound is set or pending and no `at_least()` is waiting for its count |
| CallCount.ModifierOnlyOnce | src/flexmock/_api.py:1030-1034 | once `at_least()` or `at_most()` has been given its count, choosing the same modifier again is refused |
| CallCount.CheckCountMeansAllows | src/flexmock/_api.py:1235-1268 | the count check fails exactly when the call count breaks the constraint's meaning: an exact count overrides both bounds; the upper bound applies on every call; the lower bound applies only at the final check |
| CallCount.CheckCountVerdictSameInAllRevisions | src/flexmock/api.py:948-972 | the three revisions agree on whether a count fails; only the wording differs |
| CallCount.InterimFailureIsFinal | src/flexmock/_api.py:1246-1266 | a count that fails during a call also fails the final check |
| CallCount.InterimFailureIsPermanent | src/flexmock/_api.py:1246-1266 | once a count fails during a call, every larger count fails too |
| CallCount.ExactlyOverridesBounds | src/flexmock/_api.py:1246-1254 | with an exact count set, the lower and upper bounds change neither the verdict nor the message |
| CallCount.TimesOnFreshExpectation | src/flexmock/_api.py:897-927 | after `times(n)`, call n+1 fails at once and the final check passes iff there were exactly n calls |
| CallCount.AtLeastOnceAtMostTwice | src/flexmock/_api.py:1012-1064 | `at_least().once().at_most().twice()` is accepted; the final check then passes iff 1 to 2 calls were made, and a call in progress fails only past 2 |
| CallCount.AtLeastOnceAtMostTwiceMessage | src/flexmock/_api.py:1256-1267 | the phrase for that constraint is "at least 1 time and at most 2 times" |
| CallCount.ExactlyOnceNeverCalled | tests/test_pytest.py:15 | `once()` with no call reports "... expected to be called exactly 1 time, called 0 times" |
| CallCount.CountMessage | src/flexmock/_api.py:1226-1232 | the count error begins with the rendered call followed by " expected to be called " |
| Text.ArgToStr | src/flexmock/_api.py:1399-1405 | a pattern is shown between slashes, a string between double quotes, anything else by `str()` |
| Text.FormatArgs | src/flexmock/_api.py:1407-1416 | a call renders as `name(...)`, and missing arguments render as `name()` |
| Text.FormatNoArgs | src/flexmock/_api.py:1407-1416 | an empty argument set renders the same as missing arguments |
| Text.ArgToStrDistinguishes | src/flexmock/_api.py:1399-1405 | a string argument never renders like a pattern argument, and two strings (or two patterns) render alike only when their texts are equal |
| Text.FormatArgsJoinsItems | src/flexmock/_api.py:1407-1416 | when no positional renders empty, a call renders as its name and all its rendered arguments, positionals first and then `key=value`, comma-separated in parentheses |
| Text.MangleName | src/flexmock/_api.py:141-150 | only a name that starts but does not end with `__`, on a non-module target, is rewritten; the result is `_`, the class name without leading underscores, `__`, then the name without leading underscores |
| Text.MangleIdempotent | src/flexmock/_api.py:141-150 | mangling an already-mangled name changes nothing |
| ResultQueue.ReturnValueStr | src/flexmock/_api.py:40-48 | a plain non-tuple value prints as `_arg_to_str` of it, and the empty tuple prints as `()` |
| ResultQueue.SingletonPrintsLikeItsItem | src/flexmock/_api.py:43-46 | a 1-tuple prints exactly like its only item |
| ResultQueue.ReturnValueStrSingle | src/flexmock/_api.py:43-46 | both `1` and `(1,)` print as "1" |
| ResultQueue.ReturnValueStrPair | src/flexmock/_api.py:47-48 | `(1, 2)` prints as "(1, 2)" |
| ResultQueue.CtorArgsStrOne | src/flexmock/_api.py:1156-1158 | the argument dictionary `and_raise` stores for one positional argument prints as `{'kargs': (1,), 'kwargs': {}}` |
| ResultQueue.ReturnValueStrRaise | src/flexmock/_api.py:41-42 | an `and_raise` entry prints as the exception class followed by its stored argument dictionary in parentheses |
| ResultQueue.PackValues | src/flexmock/_api.py:875-895 | `and_return()` with no values packs None, with one value packs that value, and with more packs a tuple of them in order |
| ResultQueue.Iterate | src/flexmock/_api.py:997-1010 | iterating a tuple yields its items; iterating the stored constructor-argument dict yields its two keys; None, ints, classes and patterns are not iterable |
| ResultQueue.Expand | src/flexmock/_api.py:1000-1009 | `one_by_one` replaces an iterable entry by one plain entry per item, in order, and keeps a non-iterable entry as it is |
| ResultQueue.SplitEntriesAppend | src/flexmock/_api.py:997-1010 | the `one_by_one` split works entry by entry, so it distributes over concatenation |
| ResultQueue.SplitEntriesKeepsNonIterable | src/flexmock/_api.py:997-1010 | a queue with no iterable entry is left unchanged by the split |
| ResultQueue.AndReturn | src/flexmock/_api.py:875-895 | `and_return` keeps the existing queue as a prefix; it appends one packed entry, or, under `one_by_one`, one entry per value |
| ResultQueue.AndReturnCommutesWithSplit | src/flexmock/_api.py:875-895 | splitting after `and_return` gives the same queue as `and_return` under `one_by_one` after the split |
| ResultQueue.AndRaiseEntry | src/flexmock/_api.py:1147-1159 | `and_raise` stores the exception together with its constructor arguments as the entry's value |
| ResultQueue.TakeNext | src/flexmock/_api.py:491-497 | a call takes the head of the queue and moves it to the back, so the queue keeps its contents; an empty queue yields `ReturnValue()` |
| ResultQueue.CallsCycle | src/flexmock/_api.py:491-497 | call i (from zero) uses entry i mod n of an n-entry queue; after k calls the queue is rotated by k |
| ResultQueue.EmptyQueueReturnsNone | src/flexmock/_api.py:496-497 | with nothing configured, every call uses `ReturnValue()`, which returns None |
| ResultQueue.Deliver | src/flexmock/_api.py:498-504 | a raising entry always raises: the stored instance, the class built from the stored arguments, or whatever building the class raised (the TypeError of src/flexmock/api.py:411); any other entry returns its value |
| Matcher.ArgumentsMatch | src/flexmock/_api.py:1460-1467 | an argument matches iff it equals the expected value, or is an instance of an expected class, or is a string the expected pattern finds; a pattern against a non-string raises TypeError |
| Matcher.BindKeepsDistinct | src/flexmock/_api.py:734-748 | binding positionals to parameter names keeps keyword names distinct |
| Matcher.NormalizeKeepsDistinct | src/flexmock/_api.py:734-748 | normalisation keeps keyword names distinct |
| Matcher.BindWithinSignature | src/flexmock/_api.py:734-748 | when there are no more positionals than parameters, every positional becomes the keyword for its parameter and none stay positional |
| Matcher.BindKeepsOtherKeywords | src/flexmock/_api.py:734-748 | binding leaves keywords for other names untouched |
| Matcher.PositionalCallBecomesKeywordCall | src/flexmock/_api.py:734-748 | a positional call normalises to the keyword call that names each parameter |
| Matcher.BindBeyondSignature | src/flexmock/_api.py:734-748 | with more positionals than parameters, the positionals are kept and each named parameter is bound as well |
| Matcher.MatchArgs | src/flexmock/_api.py:761-772 | an expectation without arguments matches every call; equal argument sets match; argument sets of different shape do not |
| Matcher.MatchPositionalAll | src/flexmock/_api.py:773-775 | the positional scan succeeds iff every positional argument matches |
| Matcher.MatchKeywordsAll | src/flexmock/_api.py:776-778 | the keyword scan succeeds iff every keyword argument matches its expected counterpart |
| Matcher.MatchArgsMeaning | src/flexmock/_api.py:761-779 | a call matches iff its arguments equal the expected ones, or they have the same shape and every positional and keyword argument matches |
| Matcher.IdenticalPositionalsMatch | src/flexmock/_api.py:1460-1467 | any positional arguments match themselves |
| Matcher.ReturnValuesMatchLikeArguments | src/flexmock/_api.py:430-440 | matching a spy's return value is argument matching on the value taken as a tuple |
| Signature.PadSpec | flexmock/api.py:45-59 | a legacy argspec is padded with no keyword-only arguments and no keyword-only defaults; a full spec passes through |
| Signature.StaticMethodsHaveNoReceiver | src/flexmock/_api.py:650-665 | a static method never has an implicit `self` or `cls` to discount |
| Signature.ComputeFigures | src/flexmock/_api.py:667-671 | there is a maximum iff the signature has neither `*args` nor `**kwargs`; the positional total counts the given positionals plus the keywords that name parameters |
| Signature.MissingKeywordOnlyArgs | src/flexmock/_api.py:705-709 | the missing names are exactly the keyword-only parameters that have no default and were not given |
| Signature.VerifySignatureMatch | src/flexmock/_api.py:642-715 | never raises for a fake mock; every error is a MethodSignatureError; too few arguments give the "at least" error, and otherwise too many give the "at most" error; when every parameter is filled by position, a keyword naming a parameter gives the "already given" error listing those keywords; a missing keyword-only argument or an unknown keyword without `**kwargs` is an error; the check passes exactly when none of these five conditions holds |
| Signature.TooManyPositionals | src/flexmock/_api.py:686-690 | three positionals against `m(self, a)` on an instance give "requires at most 1" with 3 provided |
| Signature.RepeatedKeywordIsTruthy | src/flexmock/_api.py:692 | the `any(...)` test over keywords naming a parameter holds exactly when one of them is non-empty |
| Signature.InvalidKeywordIsTruthy | src/flexmock/_api.py:698-701 | the `any(...)` test over unknown keywords holds exactly when one of them is non-empty |
| Signature.VerifySignatureMatchStrict | src/flexmock/_api.py:692-697 | the corrected check rejects any keyword that repeats a parameter already filled by position, and accepts only what the as-written check accepts |
| Signature.StrictAgreesWithoutRepeats | src/flexmock/_api.py:692-697 | without repeated parameters the corrected check and the as-written check agree |
| Signature.RepeatedKeywordSlipsThrough | src/flexmock/_api.py:692 | `method(self, a, b)` called with `(1, a=5)` passes the as-written check and is refused by the corrected one |
| Signature.TooFewMessages | src/flexmock/_api.py:680-685 | "method1 requires at least 1 argument, expectation provided 0"; the earlier revision always says "arguments" |
| Signature.NotAKeywordMessage | src/flexmock/_api.py:701-704 | "d is not a valid keyword argument to method" |
| Signature.AlreadyGivenMessage | src/flexmock/_api.py:693-697 | "['arg3'] already given as positional argument to method" |
| Signature.NamedOptionalRaisesMinimum | src/flexmock/_api.py:672-685 | naming an optional parameter by keyword when the positional total equals the minimum raises the minimum by one per such keyword |
| Expectations.NewExpectation | src/flexmock/_api.py:580-614 | a new expectation has no calls and no count constraint; it is callable, unverified, not ordered and not pass-through; it queues its return value only when that value is not None |
| Expectations.Raise | src/flexmock/_api.py:750-759 | a builder failure resets the expectation and then raises a FlexmockError |
| Expectations.WithArgs | src/flexmock/_api.py:830-840 | refused on stubs; without a signature it stores the arguments as given; with one it succeeds iff the revision's own signature check (as written, with that revision's receiver rule) passes, and then stores the normalised arguments; a signature failure does not reset first |
| Expectations.WithArgsRepeatedKeywordOverwritten | src/flexmock/_api.py:830-840 | `with_args(1, a=5)` on `method(self, a, b)` is accepted, and the stored expectation is `a=1`: the positional silently replaces the keyword |
| Expectations.WithArgsMatchesSameCall | src/flexmock/_api.py:761-779 | after `with_args(args)` succeeds, a call with those same arguments matches |
| Expectations.AndReturn | src/flexmock/_api.py:875-895 | on a stub the expectation is unchanged; otherwise the queue grows and keeps its old entries as a prefix |
| Expectations.StubValue | src/flexmock/_api.py:875-884 | there is a value to write exactly on a stub; it is the packed value, so a single value is taken as it is |
| Expectations.Iterator | src/flexmock/_api.py:1211 | the iterator `and_yield` builds is truthy and yields exactly its arguments |
| Expectations.AndYield | src/flexmock/_api.py:1189-1211 | refused on stubs; otherwise the iterator over the arguments is queued as one value, or, once `one_by_one` is on, each argument is queued as its own entry after the existing ones |
| Expectations.AndRaise | src/flexmock/_api.py:1147-1159 | refused on stubs; the current revision refuses a class it cannot construct from the arguments; otherwise it queues a raising entry |
| Expectations.OneByOne | src/flexmock/_api.py:997-1010 | refused on stubs; the first call splits the queue; a repeat call changes nothing |
| Expectations.OneByOneIdempotent | src/flexmock/_api.py:997-1010 | `one_by_one()` twice is the same as once |
| Expectations.OneByOneCommutesWithAndReturn | src/flexmock/_api.py:997-1010 | `and_return(...).one_by_one()` leaves the same queue as `one_by_one().and_return(...)` |
| Expectations.ReplaceWith | src/flexmock/_api.py:1178-1186 | refused on stubs and when a truthy replacement is already set; otherwise stores the function, turns on pass-through when it is the original, and changes nothing else |
| Expectations.ReplaceWithOnlyOnce | src/flexmock/_api.py:1182-1183 | a second `replace_with` after a truthy one is refused |
| Expectations.When | src/flexmock/_api.py:1114-1118 | refused on stubs and for a non-callable guard; otherwise stores the guard |
| Expectations.MarkOrdered | src/flexmock/_api.py:1085-1088 | refused on stubs; otherwise marks the expectation ordered |
| Expectations.SetTimes | src/flexmock/_api.py:925-927 | refused on stubs; otherwise sets only the slot the modifier selects, and the call count is kept |
| Expectations.AtLeast | src/flexmock/_api.py:1030-1034 | refused on stubs; otherwise succeeds iff the constraint accepts `at_least`, and every refusal resets first |
| Expectations.AtMost | src/flexmock/_api.py:1059-1063 | refused on stubs; otherwise succeeds iff the constraint accepts `at_most`, and every refusal resets first |
| Expectations.Verify | src/flexmock/_api.py:1213-1233 | raises iff the count breaks the constraint and the expectation was not yet reported; the error is a MethodCallError starting with the rendered call; the expectation is then marked verified |
| Expectations.VerifyReportsOnce | src/flexmock/_api.py:1224-1225 | once an expectation has reported a failure, later checks never raise again, however many calls follow |
| Expectations.NeverCalledOnceMessage | tests/features/call_count.py:17-28 | `once()` on `method_foo` with no call reports "method_foo() expected to be called exactly 1 time, called 0 times" |
| Namespace.Resolve | src/flexmock/_api.py:160-166 | an own attribute wins; otherwise the first class in the MRO that defines the name decides |
| Namespace.HasAttrMeansResolvable | src/flexmock/_api.py:160-166 | `_hasattr` holds iff the attribute resolves, except for an instance whose name resolves only through the root type's attributes |
| Namespace.IsProperty | src/flexmock/_api.py:1486-1497 | a name is a property only if it resolves to a property, and, on an instance, only if it is not in the instance's own dict |
| Namespace.SavedMethodType | src/flexmock/_api.py:307-316 | a saved method type is found only through a class the original is bound to |
| Namespace.Capture | src/flexmock/_api.py:717-721 | the original is captured iff the name resolves, and it is the resolved attribute; an own attribute is taken raw; a classmethod read through a class or instance is bound to that class; an installed mock method, raw or inherited, keeps the object it was bound to |
| Namespace.MethodTypeOf | src/flexmock/_api.py:289-305 | only the current revision records the method type, as the tag attribute on the target; a class method on a class is typed as one unless a saved type exists; the earlier revisions type by the raw entry of the instance's own class when it holds the name, else by the original |
| Namespace.ClassEntry | src/flexmock/api.py:256 | the entry exists exactly when the target is an instance whose own class itself holds the name, and it is that raw entry |
| Namespace.EarlierTypeFromOwnClass | src/flexmock/api.py:250-257 | in the earlier revisions a staticmethod or classmethod the instance's class defines itself is typed as such; a name the class only inherits keeps the original's type |
| Namespace.StaticMethodOnInstanceIsStatic | src/flexmock/_api.py:1516-1526 | a static method reached through an instance's class is typed static |
| Namespace.Setattr | src/flexmock/_api.py:1470-1483 | patching writes the attribute; the patch counts as a local override iff the target had a plain dict without the name, or, in the current revision, it is a class with a mapping proxy and the name was absent or falsy |
| Namespace.Restore | src/flexmock/_api.py:1270-1288 | without a truthy original nothing changes; a local override present in the own dict is deleted; otherwise the original is written back |
| Namespace.PatchThenRestore | src/flexmock/_api.py:1270-1288 | patching an attribute and then resetting it gives back the world as it was |
| Namespace.EarlierClassKeepsInheritedCopy | src/flexmock/api.py:1180-1189 | in the earlier revisions, patching an inherited method on a subclass leaves a copy of it in the subclass after reset |
| Namespace.CurrentClassDropsInheritedCopy | src/flexmock/_api.py:1470-1483 | in the current revision the same patch and reset give back the original world |
| Registry.ExpsOf | src/flexmock/_api.py:1319 | a proxy's expectations are arena ids, and an unregistered proxy has none |
| Registry.Reset | src/flexmock/_api.py:1299-1305 | the container is emptied: no proxies, no ordered queue, no last, no properties |
| Registry.AppendedExps | src/flexmock/_api.py:1337-1343 | appending extends the proxy's own list and leaves every other proxy's list alone |
| Registry.AddExpectation | src/flexmock/_api.py:1337-1343 | the new expectation gets the next arena id and is appended to its proxy's list, creating that list if needed; other proxies and the queues are unchanged |
| Registry.Named | src/flexmock/_api.py:1345-1348 | the filter keeps exactly the ids whose expectation has the given name, in order |
| Registry.NamedAppend | src/flexmock/_api.py:1345-1348 | filtering by name distributes over concatenation |
| Registry.Preferred | src/flexmock/_api.py:1318-1322 | the chosen expectation is one of the proxy's, and an ordered one is chosen only if it is still queued |
| Registry.ScanFindsPreferred | src/flexmock/_api.py:1318-1322 | the reversed scan ends on the preferred candidate: the oldest still-queued ordered match, or else the newest free one |
| Registry.ScanErrorComesFromMatcher | src/flexmock/_api.py:1319-1320 | a lookup error is the error of matching one of the same-named expectations |
| Registry.Select | src/flexmock/_api.py:1318-1322 | the lookup returns the preferred candidate, or an error raised by the matcher |
| Registry.OutOfOrder | src/flexmock/_api.py:1331-1335 | an out-of-order call is a CallOrderError |
| Registry.VerifyCallOrder | src/flexmock/_api.py:1327-1335 | the head of the ordered queue is popped and becomes `last`; the call is in order iff it is that head |
| Registry.CallOrderSameInAllRevisions | src/flexmock/api.py:1034-1047 | with a nonempty queue all revisions check call order alike |
| Registry.EmptyQueueDiffers | src/flexmock/_api.py:1329 | `_verify_call_order` on its own: with an empty queue the current revision fails with IndexError and the earlier ones accept the call; no lookup reaches that state, since a found ordered expectation is still queued (`Registry.OrderedLookupPopsHead`) |
| Registry.GetFlexmockExpectation | src/flexmock/_api.py:1307-1325 | an unknown proxy is a KeyError in the current revision; a result has the name, matches the call and is the preferred candidate; an ordered result pops the queue; otherwise the container is unchanged |
| Registry.NoDuplicateNeeded | src/flexmock/_api.py:1319-1322 | whether an id is a candidate does not depend on which position of the list it is read from |
| Registry.OrderedLookupPopsHead | src/flexmock/_api.py:1321-1324 | a found ordered expectation is still queued, and the lookup is the same in all revisions |
| Registry.PropsIndex | src/flexmock/_api.py:1353 | the object's entry is found exactly when the list holds the object, and it is the first entry that does |
| Registry.AddTeardownProperty | src/flexmock/_api.py:1351-1356 | the name is appended to the object's list and every other entry is kept; an object not yet listed becomes the last key with just that name |
| Registry.TeardownProperties | src/flexmock/_api.py:1358-1363 | attributes are only ever removed; a missing name is an AttributeError; on success every registered name is gone |
| Registry.DeleteAll | src/flexmock/_api.py:1361-1363 | on success exactly the listed names leave the object; the other attributes and objects are unchanged |
| Dispatch.ResetExpectation | src/flexmock/_api.py:1270-1288 | a fake mock, or an expectation without a truthy original, changes nothing; otherwise the patched attribute is restored |
| Dispatch.ResetIdsOnFakes | src/flexmock/_api.py:1272-1273 | resetting expectations on fake mocks leaves the world unchanged |
| Dispatch.ResetIds | src/flexmock/_api.py:534-535 | resetting a list of expectations leaves every object none of them targets unchanged |
| Dispatch.ResetEntries | src/flexmock/api.py:437-439 | resetting every registered expectation leaves every object none of them patches unchanged |
| Dispatch.Apply | src/flexmock/_api.py:750-759 | a successful builder stores the new expectation; a refusal leaves the container alone and resets first only when the error comes through `__raise` |
| Dispatch.AndReturnOn | src/flexmock/_api.py:875-895 | on a method the queue grows and the world is untouched; on a stub of a real object the container is untouched and the name then reads as the packed value, with the object's other names and every other object unchanged |
| Dispatch.StubValueUndoneByReset | src/flexmock/_api.py:882-884 | resetting a stub after `and_return` brings back the kept original, or removes the name a local override introduced, and leaves the object's other names as they were |
| Dispatch.Ordered | src/flexmock/_api.py:1085-1088 | `ordered()` succeeds iff the expectation is callable; it then appends it to the ordered queue |
| Dispatch.OriginalArgs | src/flexmock/_api.py:447-456 | the original is called with the given keywords, and with the given positionals or the runtime receiver followed by them |
| Dispatch.CheckMessage | src/flexmock/_api.py:403-417 | a failure is an ExceptionMessageError; with a compiled pattern as first argument the check passes iff the pattern finds the raised message, otherwise iff the expected message is empty or equals the raised one |
| Dispatch.MatchRaised | src/flexmock/_api.py:381-428 | without an expected exception the raised one propagates; a pass yields None and means an expected class equal to the raised class or one of its direct bases |
| Dispatch.PatternDecidesMessage | src/flexmock/_api.py:403-417 | in every revision (flexmock/api.py:909 included), when the expected message is a pattern, the exception matches iff the pattern finds the raised message, and otherwise an ExceptionMessageError results |
| Dispatch.DirectBasesOnly | src/flexmock/_api.py:396 | a raised class that is neither the expected class nor one of its direct bases is an ExceptionClassError |
| Dispatch.InstanceNeverMatches | src/flexmock/_api.py:418-426 | an expected exception instance never matches in the current revision |
| Dispatch.PassThru | src/flexmock/_api.py:442-474 | a spy returns what the original returned, and only if that value matches the first configured return value |
| Dispatch.Respond | src/flexmock/_api.py:485-504 | pass-through goes to the original, a truthy replacement is called, and otherwise the next queued entry is delivered and rotated; nothing else changes |
| Dispatch.HandleMatched | src/flexmock/_api.py:476-504 | a false guard is a StateError; otherwise the count goes up by one and is checked; a failed check resets and raises, else the call is answered |
| Dispatch.Counted | src/flexmock/_api.py:483-484 | the call count goes up by one; a count that breaks the constraint raises the MethodCallError and restores the target |
| Dispatch.OneCallTooMany | src/flexmock/_api.py:1252-1253 | one call beyond an exact count raises a MethodCallError and marks the expectation verified |
| Dispatch.CallsFollowQueue | src/flexmock/_api.py:483-504 | under `times(n)` with result queue `q`, call j+1 (for j < n) delivers entry `j mod |q|`, counts the call and rotates the queue once more, and call n+1 fails with MethodCallError |
| Dispatch.PassThruReturnsOriginal | src/flexmock/_api.py:442-474 | a pass-through expectation with nothing queued and no guard returns exactly what the original returns, and only counts the call |
| Dispatch.MockMethod | src/flexmock/_api.py:506-522 | a matching expectation handles the call; with no match a MethodSignatureError lists the received call and the same-named expectations, newest first |
| Dispatch.CallAfterTeardown | src/flexmock/_api.py:1319 | a call on a torn-down proxy is a KeyError in the current revision and a MethodSignatureError in the earlier ones |
| Proxies.SplitChained | src/flexmock/_api.py:121-123 | a chained name splits at its first dot; a name without a dot stays whole |
| Proxies.SplitJoined | src/flexmock/_api.py:121-123 | splitting `head.rest` gives back `head` and `rest` |
| Proxies.ReceivedName | src/flexmock/_api.py:102-158 | the API's own names are refused; the mangled head is accepted iff the target has it, and otherwise the missing-attribute error is raised |
| Proxies.CurrentMissingAttributeMessage | src/flexmock/_api.py:158 | "Plane does not have attribute 'fly'" |
| Proxies.EarlierMissingAttributeMessage | src/flexmock/api.py:131-134 | the earlier revisions say "<class 'Plane'> does not have attribute fly" |
| Proxies.OldestMissingNewMessage | flexmock/api.py:721-726 | the oldest revision explains a missing `__new__` as an old-style class |
| Proxies.ProxyFor | src/flexmock/_api.py:1421-1423 | the lookup finds the first proxy whose target is the object, if there is one |
| Proxies.ProxyForAppend | src/flexmock/_api.py:1421-1423 | a newly appended proxy is found by that lookup |
| Proxies.CreatePartialMock | src/flexmock/_api.py:1419-1436 | an object already proxied reuses its proxy; otherwise a new proxy is registered with no expectations |
| Proxies.PartialMockMemoised | src/flexmock/_api.py:1419-1436 | wrapping the same object twice yields the same proxy and container |
| Proxies.AttachApi | src/flexmock/_api.py:1439-1457 | a clash with an existing attribute leaves the object alone; otherwise the three API methods are written onto an object that has a dict, and nothing else changes |
| Proxies.SigOf | src/flexmock/_api.py:724-732 | a signature is kept iff the original is truthy and `inspect` gives it a parameter list; it records that list, the original's kind and whether the target is a class or a module |
| Proxies.GetOrCreateExpectation | src/flexmock/_api.py:246-260 | a new expectation with the same name inherits the first one's method type and non-None original |
| Proxies.CaptureOriginal | src/flexmock/_api.py:271-287 | the original and its method type are captured once, from the attribute the name resolves to |
| Proxies.MockBinding | src/flexmock/_api.py:278-279 | the mock method is bound to the patched object exactly when the object is not a class or the method is a classmethod or staticmethod |
| Proxies.UpdateMethod | src/flexmock/_api.py:271-287 | the mock method, bound as `MockBinding` says, replaces the attribute; the expectation records the local override and the signature |
| Proxies.CaptureSpecialOnClass | src/flexmock/_api.py:289-305 | capturing a classmethod or staticmethod a class holds itself types it as such and saves the type on the class |
| Proxies.CaptureInheritedMock | src/flexmock/_api.py:307-316 | a subclass inheriting a mock bound to its base reads the method type saved on the base |
| Proxies.DerivedSeesSavedType | src/flexmock/_api.py:289-316 | after a base class's classmethod or staticmethod is mocked, patching the same name on a subclass records the same method type, for every world |
| Proxies.UpdateAttribute | src/flexmock/_api.py:345-351 | a stub keeps the original, writes the value as a data attribute and becomes non-callable |
| Proxies.UpdateProperty | src/flexmock/_api.py:353-378 | the property is moved to `_flexmock__<name>` on the owner class once, registered for teardown and given a placeholder expectation; the stub is non-callable |
| Proxies.CreateExpectation | src/flexmock/_api.py:230-244 | the new expectation is appended to the proxy with no calls; it inherits a non-None original; a callable one is installed on a real target as the mock method; a fake mock's world is unchanged |
| Proxies.ShouldReceive | src/flexmock/_api.py:102-139 | a refused name changes nothing; otherwise a fresh expectation for the head name (no calls, no count, not split) is appended, and a chained rest is reported with the nested return value |
| Proxies.SpyOn | src/flexmock/_api.py:193-194 | without an original, `should_call` is a KeyError; otherwise the expectation becomes pass-through with its unchanged original as its replacement |
| Proxies.ShouldCall | src/flexmock/_api.py:188-194 | on a fake mock without the attribute, the error suggests `should_receive`; an unchained success is a pass-through spy whose replacement is its kept original |
| Proxies.SpyReturnsOriginal | src/flexmock/_api.py:193-194 | after `should_call` turns an expectation into a spy, a call the count allows returns exactly what the kept original returns for the same arguments |
| Proxies.NewInstances | src/flexmock/_api.py:196-228 | refused unless the target is a class; on success the `__new__` expectation returns the given objects one per call, in order |
| Proxies.NewIsNotRenamed | src/flexmock/_api.py:141-150 | `__new__` is never mangled |
| Proxies.OneByOneQueuesEach | src/flexmock/_api.py:226-228 | `and_return(tuple).one_by_one()` queues each item in order |
| Proxies.TagNameDiffers | src/flexmock/_api.py:304 | the method-type tag never overwrites the patched name |
| Proxies.UpdateMethodThenReset | src/flexmock/_api.py:1270-1288 | patching an own method and resetting it restores the object, except for the method-type tag |
| Teardown.DropTags | src/flexmock/_api.py:536-543 | exactly the expectations' method-type tags are removed from the target; everything else stays |
| Teardown.ResetAndDrop | src/flexmock/_api.py:530-543 | resetting each proxy's expectations and dropping their method-type tags leaves every object that no proxy targets and no expectation patches unchanged |
| Teardown.ResetStage | src/flexmock/_api.py:530-543 | the first stage of teardown in each revision leaves every object that no proxy targets and no expectation patches unchanged |
| Teardown.StripApi | src/flexmock/_api.py:550-561 | exactly the attached API methods are removed from an object |
| Teardown.StripAll | src/flexmock/_api.py:544-561 | every real target loses its attached API methods, and untouched objects stay as they are |
| Teardown.StripApiTwice | src/flexmock/_api.py:550-561 | stripping twice is stripping once |
| Teardown.FirstUnmet | src/flexmock/_api.py:567-569 | verification stops at the first expectation whose count is unmet, in registration order |
| Teardown.CleanUp | src/flexmock/_api.py:527-563 | the cleanup before the count checks leaves untouched objects as they were, and on success every registered property name is gone from its object |
| Teardown.FlexmockTeardown | src/flexmock/_api.py:527-569 | corrected (see Findings): the count checks do not reset again; the world is cleaned up; a property error aborts before reset; otherwise the container is emptied and teardown raises a MethodCallError iff some expectation's count is unmet |
| Teardown.FlexmockTeardownAsWritten | src/flexmock/_api.py:527-569 | the teardown as written raises the same errors and empties the container the same way as the corrected one, is the corrected one when nothing fails, and its extra reset leaves untouched objects as the cleanup left them |
| Teardown.ResetAgain | src/flexmock/_api.py:1223-1226 | the reset a failing count check does before raising changes only the failing expectation's own target |
| Teardown.UntouchedUnchanged | src/flexmock/_api.py:527-569 | an object no expectation, proxy or property refers to is left unchanged by the teardown as written and by the corrected one |
| Teardown.SecondTeardownIsQuiet | src/flexmock/_api.py:562-563 | a second teardown right after a clean one changes nothing and raises nothing |
| Teardown.RepeatedResetLeavesCopy | src/flexmock/_api.py:1226 | after an instance's inherited method was mocked with `once()` and never called, the as-written teardown raises and leaves a copy of the method in the instance's dict |
| Teardown.CleanScenario | src/flexmock/_api.py:527-569 | the corrected teardown raises the same error and leaves the instance's dict empty and the class untouched |

## Left out

- The test-runner integrations (pytest, unittest, doctest hooks) are not modelled. They only call teardown at the end of a test.
- Real Python reflection is not modelled: `inspect`, `getattr` on builtins, descriptors. Attributes are records in the `World` map. Functions, signatures, exception construction and `str()` of exceptions come from the `Host` and `Inspector` oracles.
- `_get_runnable`, which reads the source text of a `when()` guard, is left out. The guard's description is an opaque string supplied by the host.
- The `__getattribute__` deprecation hooks are left out, along with the error for `once`/`twice`/`never` used without parentheses at `src/flexmock/_api.py:1236-1239`. They only serve a removed calling style.
- The forwarding of magic methods to class-level mocks is left out, because it only installs Python-level trampolines.
- Spying on coroutine functions is left out. It needs an event loop.
- The fake `Mock` object's own `__iter__`, `__call__` and context-manager methods are left out. Fake mocks are modelled as ids whose attributes are supplied per request (`Request.fakeAttr`).
- The keyword arguments to `flexmock(obj, **kwargs)` are left out. They are stubs created through the same `should_receive` path.
- Proxies.CreatePartialMock: the placeholder expectation without a name that the source adds for a new proxy is not stored, because it never matches a call and has no count to verify. The new proxy starts with an empty list instead.
- Proxies.ShouldReceive: chained names (`"a.b.c"`) are split and checked, and the nested return value is queued. The nested proxy for the rest of the chain is not created.
- Proxies.CreateExpectation: only the current revision's creation path is modelled. The earlier revisions' `_create_expectation` and `_update_method` are not.
- Dispatch.AndReturnOn: on a fake object the stub's value is not recorded, because a fake's attributes are supplied per request and are not part of the world.
- Dispatch.PassThru: the `_original_function` shortcut for special methods is not modelled. The original attribute's value is called through the host.
- Proxies.AttachApi: the TypeError from attaching to builtin types is folded into "object has no dict".
- Registry.TeardownProperties: the AttributeError carries the attribute name as its message. Python's exact wording is not modelled.
- Dispatch.MatchRaised: whether an exception class can be built from the stored arguments is the host's `construct` oracle. `str()` of the raised exception is the message parameter.
- Expectations.AndRaise: "can be constructed from the arguments" is a boolean parameter standing for the host's attempt.
- Integers are unbounded, as in Python. Nothing in the engine wraps around.

## Findings

| source | as written | input that shows it | evidently intended | confidence | as-written member | corrected member |
|---|---|---|---|---|---|---|
| src/flexmock/_api.py:692 | a keyword that repeats a positionally-filled parameter is reported only when the call fills every parameter by position (`args_len == len(kargs)`) | `def method(self, a, b)` on an instance; `with_args(1, a=5)` | report any keyword naming a parameter that a positional argument already fills | not executed | Signature.RepeatedKeywordSlipsThrough | Signature.StrictAgreesWithoutRepeats |
| src/flexmock/_api.py:1226 | a count failure at teardown calls `__raise`, which resets the expectation a second time after the cleanup already deleted the instance's override, so the original is written into the instance's own dict | an instance of a class that defines `f`; `flexmock(obj).should_receive("f").once()`; no call; `flexmock_teardown()` | teardown raises MethodCallError and leaves the instance's dict as it was before mocking | not executed | Teardown.RepeatedResetLeavesCopy | Teardown.CleanScenario |

`Expectations.WithArgs` keeps the as-written check, because that is what the library runs (`Expectations.WithArgsRepeatedKeywordOverwritten` shows the effect). The corrected check refuses only calls that repeat a parameter, so the two agree on every other call.
