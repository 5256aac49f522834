/**
 * `Logger`'s context handling: a stack of context layers pushed and
 * popped around scoped work, and the context each log call sends, built
 * from the layers and the call's own keys.  Emitting the entry itself
 * (`wc_get_logger()`) is not modelled.
 */
module Logger {
  import opened PhpCore
  import opened PhpArray

  /**
   * A context value.  `Thrown` is a `\Throwable` object with what
   * `get_class`, `getMessage` and `getTraceAsString` report;
   * `ExceptionInfo` is the `{class, message}` array that replaces it.
   */
  datatype ContextValue =
    | Null
    | Text(text: string)
    | Number(n: int)
    | Thrown(className: string, message: string, trace: string)
    | ExceptionInfo(className: string, message: string)

  /** A context array with string keys. */
  type Context = seq<(string, ContextValue)>

  /** Every layer is a PHP array: its keys are distinct. */
  predicate WellFormedLayers(stack: seq<Context>)
  {
    forall i :: 0 <= i < |stack| ==> DistinctKeys(stack[i])
  }

  /** `array_merge` of the layers in push order. */
  function Stacked(stack: seq<Context>): Context
    decreases |stack|
  {
    if stack == [] then [] else Merge(Stacked(stack[..|stack| - 1]), stack[|stack| - 1])
  }

  /** The value of `k` in the most recently pushed layer that has it. */
  function LayerValue(stack: seq<Context>, k: string): Option<ContextValue>
    decreases |stack|
  {
    if stack == [] then None
    else if HasKey(stack[|stack| - 1], k) then Get(stack[|stack| - 1], k)
    else LayerValue(stack[..|stack| - 1], k)
  }

  /** Merging the layers lets the latest layer holding a key decide its value. */
  lemma {:induction false} StackedLookup(stack: seq<Context>, k: string)
    requires WellFormedLayers(stack)
    ensures Get(Stacked(stack), k) == LayerValue(stack, k)
    decreases |stack|
  {
    if stack != [] {
      var front := stack[..|stack| - 1];
      var top := stack[|stack| - 1];
      assert WellFormedLayers(front) by {
        forall i | 0 <= i < |front| ensures DistinctKeys(front[i]) {
          assert front[i] == stack[i];
        }
      }
      StackedLookup(front, k);
      if HasKey(top, k) {
        MergeTakesLater(Stacked(front), top, k);
      } else {
        MergeKeepsOthers(Stacked(front), top, k);
      }
    }
  }

  /** The key every emitted context carries, and its value. */
  const SourceKey := "source"
  const SourceValue := Text("local2global")

  /**
   * `prepare_context($context)` over `stack`, with `debug` standing for
   * `defined('L2G_DEBUG') && L2G_DEBUG`.
   */
  function PrepareContext(stack: seq<Context>, context: Context, debug: bool): Context
  {
    var merged := Merge(Stacked(stack), context);
    var withSource := Put(merged, SourceKey, SourceValue);
    var ex := Get(withSource, "exception");
    if ex.Some? && ex.value.Thrown? then
      var replaced := Put(withSource, "exception", ExceptionInfo(ex.value.className, ex.value.message));
      if debug then Put(replaced, "trace", Text(ex.value.trace)) else replaced
    else withSource
  }

  /** Every emitted context has `source = 'local2global'`, whatever the caller or the layers said. */
  lemma PrepareContextSource(stack: seq<Context>, context: Context, debug: bool)
    ensures Get(PrepareContext(stack, context, debug), SourceKey) == Some(SourceValue)
  {
  }

  /**
   * A key other than `source`, `exception` and `trace` gets the call's own
   * value when the call passes it, and otherwise the latest layer's.
   */
  lemma PrepareContextLookup(stack: seq<Context>, context: Context, debug: bool, k: string)
    requires WellFormedLayers(stack) && DistinctKeys(context)
    requires k != SourceKey && k != "exception" && k != "trace"
    ensures Get(PrepareContext(stack, context, debug), k) ==
            if HasKey(context, k) then Get(context, k) else LayerValue(stack, k)
  {
    StackedLookup(stack, k);
    if HasKey(context, k) {
      MergeTakesLater(Stacked(stack), context, k);
    } else {
      MergeKeepsOthers(Stacked(stack), context, k);
    }
  }

  /**
   * A `Throwable` under `exception` is replaced by its class and message;
   * its trace is added exactly in debug mode.  Any other value under
   * `exception` is passed through, and no trace is added.
   */
  lemma PrepareContextException(stack: seq<Context>, context: Context, debug: bool)
    ensures var merged := Merge(Stacked(stack), context);
      var r := PrepareContext(stack, context, debug);
      var ex := Get(merged, "exception");
      (ex.Some? && ex.value.Thrown? ==>
         Get(r, "exception") == Some(ExceptionInfo(ex.value.className, ex.value.message)) &&
         Get(r, "trace") == (if debug then Some(Text(ex.value.trace)) else Get(merged, "trace"))) &&
      (!(ex.Some? && ex.value.Thrown?) ==> Get(r, "exception") == ex && Get(r, "trace") == Get(merged, "trace"))
  {
    var merged := Merge(Stacked(stack), context);
    var withSource := Put(merged, SourceKey, SourceValue);
    assert Get(withSource, "exception") == Get(merged, "exception");
    assert Get(withSource, "trace") == Get(merged, "trace");
    var ex := Get(withSource, "exception");
    if ex.Some? && ex.value.Thrown? {
      var replaced := Put(withSource, "exception", ExceptionInfo(ex.value.className, ex.value.message));
      assert Get(replaced, "trace") == Get(merged, "trace");
      if debug {
        assert Get(Put(replaced, "trace", Text(ex.value.trace)), "exception") == Get(replaced, "exception");
      }
    }
  }

  /** What `pop_context` leaves: the stack without its top, or the empty stack. */
  function Popped(stack: seq<Context>): (r: seq<Context>)
    ensures stack == [] ==> r == []
    ensures stack != [] ==> r + [stack[|stack| - 1]] == stack
  {
    if stack == [] then [] else stack[..|stack| - 1]
  }

  /** `pop_context` undoes `push_context`. */
  lemma PopUndoesPush(stack: seq<Context>, context: Context)
    ensures Popped(stack + [context]) == stack
  {
    assert (stack + [context])[..|stack|] == stack;
  }

  class Logger {
    var contextStack: seq<Context>

    constructor()
      ensures contextStack == []
    {
      contextStack := [];
    }

    /** `push_context`. */
    method PushContext(context: Context)
      modifies this
      ensures contextStack == old(contextStack) + [context]
    {
      contextStack := contextStack + [context];
    }

    /** `pop_context`: `array_pop`, a no-op on an empty stack. */
    method PopContext()
      modifies this
      ensures contextStack == Popped(old(contextStack))
    {
      if |contextStack| > 0 {
        contextStack := contextStack[..|contextStack| - 1];
      }
    }

    /**
     * `scoped($context, $callback)`.  The callback is given the stack with
     * `context` on top and answers with its outcome (a value or an
     * exception) and the stack it leaves; the pop in `finally` runs in both
     * cases, and the outcome is passed on.
     */
    method Scoped<T>(context: Context, callback: seq<Context> -> (Result<T>, seq<Context>)) returns (r: Result<T>)
      modifies this
      ensures r == callback(old(contextStack) + [context]).0
      ensures contextStack == Popped(callback(old(contextStack) + [context]).1)
    {
      PushContext(context);
      var outcome := callback(contextStack);
      contextStack := outcome.1;
      PopContext();
      r := outcome.0;
    }

    /** `prepare_context($context)`: the layers merged in a loop, then the call's keys, `source` and the exception. */
    method PrepareContextOf(context: Context, debug: bool) returns (r: Context)
      ensures r == PrepareContext(contextStack, context, debug)
    {
      var stacked: Context := [];
      for i := 0 to |contextStack|
        invariant stacked == Stacked(contextStack[..i])
      {
        TakePrefix(contextStack, i);
        stacked := Merge(stacked, contextStack[i]);
      }
      assert contextStack[..|contextStack|] == contextStack;
      r := Merge(stacked, context);
      r := Put(r, SourceKey, SourceValue);
      var ex := Get(r, "exception");
      if ex.Some? && ex.value.Thrown? {
        r := Put(r, "exception", ExceptionInfo(ex.value.className, ex.value.message));
        if debug {
          r := Put(r, "trace", Text(ex.value.trace));
        }
      }
    }
  }

  /**
   * A callback that leaves the stack as it found it (it pops whatever it
   * pushes), whether it returns or throws, makes `scoped` restore the
   * caller's stack exactly.
   */
  lemma ScopedRestores<T>(stack: seq<Context>, context: Context, callback: seq<Context> -> (Result<T>, seq<Context>))
    requires callback(stack + [context]).1 == stack + [context]
    ensures Popped(callback(stack + [context]).1) == stack
  {
    PopUndoesPush(stack, context);
  }
}
