# Generic sum types, iteration, builders and a state machine — a Dafny model

This project models the sequential logic in four sample source files of the
repository: a hand-rolled `Option`/`Result` pair with an iteration protocol
(`rust/sample2.rs`), a validated configuration builder, a guarded four-state
machine and a few helpers (`rust/sample3.rs`), a fluent SQL query builder
(`java/sample3.java`), and a vector-backed stack with a second query builder
(`cpp/sample3.cpp`).

Value types become datatypes (`Option`, `Result`, `Pair`, `Config`,
`ConfigBuilder`, `TreeNode`, `User`); objects whose fields the source assigns
in place become classes (`Container`, `RangeIterator`, `StateMachine`, the two
`QueryBuilder`s, `Stack`). Each class method is proved against a
specification: the state machine against the transition table `Step`, the
Java `build` against the text function `Query`, the stack against `Pushed`,
`Popped` and `Top`. Fixed-width integers (`i32`, `u16`, `u64`) are subset
types of `int` in module `Ints`; a `panic!` in `unwrap` and C++'s undefined
`back()` on an empty vector become preconditions. Rust's `Config` getters are
the functions `GetHost`, `GetPort`, `GetTimeout`, used in `Build`'s contract.

Two behaviours of the configuration builder are worth stating outright:
- `build` checks only that a host was set; it does not check that the host is non-empty.
- A setter called twice keeps the last value.

## Model

| member | source | states |
|---|---|---|
| Variants.Option.IsSome | src/parser/__tests__/fixtures/rust/sample2.rs:185-187 | true exactly for `Some`, and exactly one of `is_some`/`is_none` holds |
| Variants.Option.IsNone | src/parser/__tests__/fixtures/rust/sample2.rs:189-191 | true exactly for `None` |
| Variants.Option.Unwrap | src/parser/__tests__/fixtures/rust/sample2.rs:193-198 | defined only on `Some` (`None` panics); wrapping the result again gives back the option |
| Variants.Option.Map | src/parser/__tests__/fixtures/rust/sample2.rs:200-208 | the result is `Some` iff the input is, and then holds `f` of the input's value |
| Variants.MapNone | src/parser/__tests__/fixtures/rust/sample2.rs:204-207 | `None.map(f) == None` for every `f` |
| Variants.SomeLaws | src/parser/__tests__/fixtures/rust/sample2.rs:193-208 | `Some(x).unwrap() == x` and `Some(x).map(f) == Some(f(x))` |
| Variants.MapFunctor | src/parser/__tests__/fixtures/rust/sample2.rs:200-208 | mapping the identity changes nothing; mapping `f` then `g` equals mapping their composition |
| Variants.Result.IsOk | src/parser/__tests__/fixtures/rust/sample2.rs:159-161 | true exactly for `Ok`, and exactly one of `is_ok`/`is_err` holds |
| Variants.Result.IsErr | src/parser/__tests__/fixtures/rust/sample2.rs:163-165 | true exactly for `Err` |
| Variants.Result.Unwrap | src/parser/__tests__/fixtures/rust/sample2.rs:167-175 | defined only on `Ok` (`Err` panics); `Ok(v).unwrap() == v` |
| Generics.Pair.GetFirst | src/parser/__tests__/fixtures/rust/sample2.rs:65-67 | returns the first component |
| Generics.Pair.GetSecond | src/parser/__tests__/fixtures/rust/sample2.rs:69-71 | returns the second component |
| Generics.Pair.Swap | src/parser/__tests__/fixtures/rust/sample2.rs:73-78 | the first component of the result is the old second and vice versa |
| Generics.SwapInvolution | src/parser/__tests__/fixtures/rust/sample2.rs:73-78 | swapping twice gives back the original pair |
| Generics.Container.constructor | src/parser/__tests__/fixtures/rust/sample2.rs:25-27 | the new container holds the given value |
| Generics.Container.Get | src/parser/__tests__/fixtures/rust/sample2.rs:29-31 | returns the held value and changes nothing |
| Generics.Container.Set | src/parser/__tests__/fixtures/rust/sample2.rs:33-35 | afterwards the container holds the new value |
| Generics.Container.IntoInner | src/parser/__tests__/fixtures/rust/sample2.rs:37-39 | returns the held value |
| Iteration.RangeIterator.constructor | src/parser/__tests__/fixtures/rust/sample2.rs:236-241 | the cursor starts at `start` and the bound is `end` |
| Iteration.RangeIterator.Next | src/parser/__tests__/fixtures/rust/sample2.rs:247-255 | yields `Some(current)` and advances by exactly one iff `current < end`, otherwise yields `None` with the state unchanged; `None` comes only from an exhausted iterator and leaves it exhausted, so it never yields again |
| Iteration.RangeIterator.Count | src/parser/__tests__/fixtures/rust/sample2.rs:217-226 | returns max(0, end - current) on entry, i.e. max(0, end - start) for a fresh iterator, and leaves the iterator exhausted |
| Configs.Config.GetHost | src/parser/__tests__/fixtures/rust/sample3.rs:219-221 | returns the configured host |
| Configs.Config.GetPort | src/parser/__tests__/fixtures/rust/sample3.rs:223-225 | returns the configured port |
| Configs.Config.GetTimeout | src/parser/__tests__/fixtures/rust/sample3.rs:227-229 | returns the configured timeout |
| Configs.NewBuilder | src/parser/__tests__/fixtures/rust/sample3.rs:172-178 | a new builder has no field set |
| Configs.ConfigBuilder.Host | src/parser/__tests__/fixtures/rust/sample3.rs:180-183 | sets the host to `Some(value)` and leaves port and timeout alone |
| Configs.ConfigBuilder.Port | src/parser/__tests__/fixtures/rust/sample3.rs:185-188 | sets the port to `Some(value)` and leaves host and timeout alone |
| Configs.ConfigBuilder.Timeout | src/parser/__tests__/fixtures/rust/sample3.rs:190-193 | sets the timeout to `Some(value)` and leaves host and port alone |
| Configs.ConfigBuilder.Build | src/parser/__tests__/fixtures/rust/sample3.rs:195-208 | fails iff no host was set, with `InvalidInput("Host is required")`; on success keeps the host, and takes port and timeout from the builder or else 8080 and 30 |
| Configs.SettersLastWriteWins | src/parser/__tests__/fixtures/rust/sample3.rs:180-193 | a setter called twice keeps the last value; setters of different fields commute |
| Configs.HostSufficesToBuild | src/parser/__tests__/fixtures/rust/sample3.rs:195-208 | any builder with a host builds and keeps it; a builder with nothing set fails |
| Configs.BuildExamples | src/parser/__tests__/fixtures/rust/sample3.rs:195-208 | `new().port(9090).build()` fails; `new().host("x").build()` is `Config("x", 8080, 30)` |
| StateMachines.Step | src/parser/__tests__/fixtures/rust/sample3.rs:265-301 | each operation succeeds iff allowed in the current state (start from Idle/Stopped, pause from Running, stop and reset always) and then moves to its target; a failure leaves the state unchanged and names the operation in an `InvalidInput` error |
| StateMachines.RunAppend | src/parser/__tests__/fixtures/rust/sample3.rs:258-301 | running two sequences of operations one after the other is running their concatenation |
| StateMachines.StopResetAbsorb | src/parser/__tests__/fixtures/rust/sample3.rs:289-301 | after any history, `stop` leaves the machine Stopped and `reset` leaves it Idle; both are idempotent |
| StateMachines.EnteredOnlyByItsOperation | src/parser/__tests__/fixtures/rust/sample3.rs:265-301 | a run that ends in Running, Paused, Stopped or Idle having started elsewhere contains start, pause, stop or reset respectively |
| StateMachines.StateMachine.constructor | src/parser/__tests__/fixtures/rust/sample3.rs:259-263 | a new machine is Idle |
| StateMachines.StateMachine.Start | src/parser/__tests__/fixtures/rust/sample3.rs:265-275 | new state and result are those of the table for `start` |
| StateMachines.StateMachine.Pause | src/parser/__tests__/fixtures/rust/sample3.rs:277-287 | new state and result are those of the table for `pause` |
| StateMachines.StateMachine.Stop | src/parser/__tests__/fixtures/rust/sample3.rs:289-291 | new state is that of the table for `stop` (Stopped) |
| StateMachines.StateMachine.Reset | src/parser/__tests__/fixtures/rust/sample3.rs:299-301 | new state is that of the table for `reset` (Idle) |
| StateMachines.StateMachine.GetState | src/parser/__tests__/fixtures/rust/sample3.rs:293-295 | returns the current state |
| Trees.NewNode | src/parser/__tests__/fixtures/rust/sample3.rs:148-153 | a new node holds the value and no children |
| Trees.AddChild | src/parser/__tests__/fixtures/rust/sample3.rs:155-157 | the child is appended after the existing children, which keep their order; the value is kept |
| Trees.CountNodes | src/parser/__tests__/fixtures/rust/sample3.rs:159-161 | the count is at least one plus the number of direct children |
| Trees.SumCounts | src/parser/__tests__/fixtures/rust/sample3.rs:160 | the summed count of a list of subtrees is at least its length |
| Trees.SumCountsAppend | src/parser/__tests__/fixtures/rust/sample3.rs:160 | summing over a list with one more subtree adds that subtree's count |
| Trees.AddChildCount | src/parser/__tests__/fixtures/rust/sample3.rs:155-161 | `add_child(c)` raises `count_nodes` by exactly `c.count_nodes()` |
| Trees.LeafCount | src/parser/__tests__/fixtures/rust/sample3.rs:148-161 | a fresh node counts one |
| Processing.DataProcessor.Process | src/parser/__tests__/fixtures/rust/sample3.rs:43-48 | fails iff the data is empty, with `InvalidInput("Empty data")`; otherwise the text is the name, ": ", then the data, each readable back from it |
| Processing.SafeUnwrap | src/parser/__tests__/fixtures/rust/sample3.rs:323-325 | the held value if there is one, else the default |
| DecimalText.Render | src/parser/__tests__/fixtures/java/sample3.java:220 | the numeral has at least one digit, only digits, and no leading zero for a positive number |
| DecimalText.ValueOfRender | src/parser/__tests__/fixtures/java/sample3.java:220 | reading the numeral back gives the number |
| JavaQuery.QueryHead | src/parser/__tests__/fixtures/java/sample3.java:212 | the query starts with "SELECT * FROM " and the table ("null" when unset), followed by the clauses |
| JavaQuery.WhereComesFirst | src/parser/__tests__/fixtures/java/sample3.java:213-221 | what follows the table starts with " WHERE " iff a non-null condition was set |
| JavaQuery.OrderComesSecond | src/parser/__tests__/fixtures/java/sample3.java:216-221 | what follows the condition starts with " ORDER BY " iff a non-null order field was set |
| JavaQuery.QueryLayout | src/parser/__tests__/fixtures/java/sample3.java:211-223 | table, then " WHERE cond" iff set, then " ORDER BY field" iff set, then " LIMIT n" iff the limit is positive and nothing after it otherwise, in that fixed order |
| JavaQuery.QueryBuilder.constructor | src/parser/__tests__/fixtures/java/sample3.java:184-185 | all string fields null and the limit 0 |
| JavaQuery.QueryBuilder.Create | src/parser/__tests__/fixtures/java/sample3.java:187-189 | returns a fresh builder with Java's default field values |
| JavaQuery.QueryBuilder.From | src/parser/__tests__/fixtures/java/sample3.java:191-194 | sets the table only and returns the same builder |
| JavaQuery.QueryBuilder.Where | src/parser/__tests__/fixtures/java/sample3.java:196-199 | sets the condition only and returns the same builder |
| JavaQuery.QueryBuilder.OrderBy | src/parser/__tests__/fixtures/java/sample3.java:201-204 | sets the order field only and returns the same builder |
| JavaQuery.QueryBuilder.Limit | src/parser/__tests__/fixtures/java/sample3.java:206-209 | sets the limit only and returns the same builder |
| JavaQuery.QueryBuilder.Build | src/parser/__tests__/fixtures/java/sample3.java:211-223 | the appended text equals `Query` of the current fields |
| Stacks.Pushed | src/parser/__tests__/fixtures/cpp/sample3.cpp:95-97 | one longer, earlier items unchanged, the new item last |
| Stacks.Popped | src/parser/__tests__/fixtures/cpp/sample3.cpp:99-103 | one shorter, and putting the removed last item back restores the original |
| Stacks.PopUndoesPush | src/parser/__tests__/fixtures/cpp/sample3.cpp:95-103 | `pop` after `push(x)` returns `x` and restores the items |
| Stacks.Stack.constructor | src/parser/__tests__/fixtures/cpp/sample3.cpp:92 | a new stack holds nothing |
| Stacks.Stack.Empty | src/parser/__tests__/fixtures/cpp/sample3.cpp:105-107 | true iff no items are held |
| Stacks.Stack.Push | src/parser/__tests__/fixtures/cpp/sample3.cpp:95-97 | appends the item; the stack is then not empty |
| Stacks.Stack.Pop | src/parser/__tests__/fixtures/cpp/sample3.cpp:99-103 | on a non-empty stack, returns the last item and removes exactly it |
| CppQuery.QueryBuilder.constructor | src/parser/__tests__/fixtures/cpp/sample3.cpp:33-36 | empty table, no columns, empty condition |
| CppQuery.QueryBuilder.Build | src/parser/__tests__/fixtures/cpp/sample3.cpp:54-56 | the text is "SELECT * FROM " followed by exactly the table |
| CppQuery.QueryBuilder.From | src/parser/__tests__/fixtures/cpp/sample3.cpp:39-42 | sets the table only and returns the same builder |
| CppQuery.QueryBuilder.Select | src/parser/__tests__/fixtures/cpp/sample3.cpp:44-47 | appends the column after the earlier ones; the built text does not change |
| CppQuery.QueryBuilder.Where | src/parser/__tests__/fixtures/cpp/sample3.cpp:49-52 | sets the condition only; the built text does not change |
| Users.User.IsAdult | src/parser/__tests__/fixtures/cpp/sample3.cpp:126-128 | true iff the age is at least 18 |

## Left out

- The `Iterator` trait is not modelled generically: Dafny traits are not used, so `count` is a method of `RangeIterator`, the trait's only implementor here.
- Moves are not modelled: `unwrap`, `map`, `swap`, `into_inner`, `count` and `build` consume their receiver in Rust; here the receiver stays usable.
- Panics are preconditions: `Option::unwrap` on `None` and `Result::unwrap` on `Err`; the panic message (`{:?}` of the error) is not modelled.
- Trees.AddChild: modelled as a value update returning the new node, not in place; the node owns its children uniquely, so no aliasing is lost.
- Configs: the builder setters are record updates on a value, as their by-value `mut self` signature allows.
- Iteration.RangeIterator.Count: the count is a `nat`; the `usize` bound is not modelled (the count never exceeds 2^32).
- Strings are sequences of characters; Rust's UTF-8 byte view and C++'s byte strings are not modelled.
- Java's `Integer.toString` of a negative number is not modelled; the LIMIT clause only renders positive limits.
- `Container::clone_value`, `Container::display_value`, `make_container`, `draw_shape`, `Pair::new`, `DataProcessor::get_name`, `ProcessorConfig::new`/`default` and `convert_error` are trivial delegations or formatting and are left out; the module-level constants are not modelled.
- Geometry, the calculators, the HTTP server, the user service, the singletons, the observer, the smart-pointer wrappers and the display helpers are outside this model (floating point, I/O, concurrency, global state).
