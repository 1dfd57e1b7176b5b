/** `rewriteHandlerDefinitions`: every function handler is routed through the agent's loader. */
module Handlers {
  import opened Wrappers
  import opened Text

  /** The path prefix of a rewritten handler inside the installed agent module. */
  const LoaderPrefix := "node_modules/@dynatrace/oneagent/index."

  /**
   * The new handler for `handler`: the first two `.`-separated pieces joined
   * by `$`; JavaScript renders a missing second piece as "undefined".
   */
  function RewriteHandler(handler: string): (r: string)
    ensures |r| > |LoaderPrefix| && r[..|LoaderPrefix|] == LoaderPrefix
  {
    var pieces := SplitOn(handler, '.');
    LoaderPrefix + pieces[0] + "$" + (if |pieces| > 1 then pieces[1] else "undefined")
  }

  /** `file.symbol` becomes `<prefix>file$symbol`. */
  lemma {:induction false} RewriteModuleExport(file: string, symbol: string)
    requires '.' !in file && '.' !in symbol
    ensures RewriteHandler(file + "." + symbol) == LoaderPrefix + file + "$" + symbol
  {
    SplitAround(file, symbol, '.');
    SplitWithoutSeparator(file, '.');
    SplitWithoutSeparator(symbol, '.');
  }

  /** Only the first two pieces are used: anything after a second `.` is dropped. */
  lemma {:induction false} RewriteIgnoresTail(file: string, symbol: string, tail: string)
    requires '.' !in file && '.' !in symbol
    ensures RewriteHandler(file + "." + symbol + "." + tail) == RewriteHandler(file + "." + symbol)
  {
    SplitAround(file, symbol + "." + tail, '.');
    SplitAround(symbol, tail, '.');
    SplitWithoutSeparator(file, '.');
    SplitWithoutSeparator(symbol, '.');
    assert file + "." + symbol + "." + tail == file + ['.'] + (symbol + ['.'] + tail);
    RewriteModuleExport(file, symbol);
  }

  /**
   * A handler whose path holds a dot is cut at that dot, not at the one before
   * the function name: `./index.hello` becomes the loader of "" exporting `/index`.
   */
  lemma {:induction false} RewriteDottedPath(directory: string, file: string, symbol: string)
    requires '.' !in directory && '.' !in file
    ensures RewriteHandler(directory + "." + file + "." + symbol) == LoaderPrefix + directory + "$" + file
  {
    RewriteIgnoresTail(directory, file, symbol);
    RewriteModuleExport(directory, file);
  }

  /** A handler without a `.` gets the symbol name "undefined". */
  lemma RewriteWithoutDot(handler: string)
    requires '.' !in handler
    ensures RewriteHandler(handler) == LoaderPrefix + handler + "$undefined"
  {
  }

  /**
   * The `file.symbol` handler a rewritten reference designates: the text
   * after the loader prefix, split at its first `$`.
   */
  function OriginalHandler(rewritten: string): Option<string> {
    if |rewritten| >= |LoaderPrefix| && rewritten[..|LoaderPrefix|] == LoaderPrefix then
      var pieces := SplitOn(rewritten[|LoaderPrefix|..], '$');
      if |pieces| >= 2 then Some(pieces[0] + "." + JoinWith(pieces[1..], '$')) else None
    else
      None
  }

  /** The rewrite loses nothing: a `file.symbol` handler is recovered from its rewritten form. */
  lemma {:induction false} RewriteRoundTrip(file: string, symbol: string)
    requires '.' !in file && '.' !in symbol && '$' !in file
    ensures OriginalHandler(RewriteHandler(file + "." + symbol)) == Some(file + "." + symbol)
  {
    RewriteModuleExport(file, symbol);
    var r := RewriteHandler(file + "." + symbol);
    assert r[|LoaderPrefix|..] == file + ['$'] + symbol;
    SplitAround(file, symbol, '$');
    SplitWithoutSeparator(file, '$');
    var pieces := SplitOn(file + ['$'] + symbol, '$');
    assert pieces[1..] == SplitOn(symbol, '$');
  }

  /** The function table after the rewrite: same function names, every handler rewritten. */
  function RewriteFunctions(functions: map<string, string>): (r: map<string, string>)
    ensures r.Keys == functions.Keys
    ensures forall name :: name in r ==> r[name] == RewriteHandler(functions[name])
  {
    map name | name in functions :: RewriteHandler(functions[name])
  }

  /** Every `file.symbol` handler in the table ends up as `<prefix>file$symbol`. */
  lemma RewriteAllModuleExports(functions: map<string, string>, name: string, file: string, symbol: string)
    requires name in functions && functions[name] == file + "." + symbol
    requires '.' !in file && '.' !in symbol
    ensures name in RewriteFunctions(functions)
    ensures RewriteFunctions(functions)[name] == LoaderPrefix + file + "$" + symbol
  {
    RewriteModuleExport(file, symbol);
  }
}
