/**
 * The symbol-style registry: a process-wide table from a style's hash to the
 * entry registered for it, filled by `registerStyle`, read by `fetchStyle`
 * and `getSymbolsStyles`, and replaced wholesale by `setSymbolsStyles`.
 */
module SymbolCache {
  import opened Wrappers
  import opened JsValues

  /** What is registered under a hash: the style, and the recoloured symbol image once one was made. */
  datatype SymbolEntry = SymbolEntry(style: Option<Fields>, symbolUrlCustomized: Option<string>)

  const RegisterStyleError: string := "specify all the params: sha, style"

  /** The registry. Last write wins: registering a hash again replaces its entry. */
  class SymbolStyles {
    var styles: map<int, SymbolEntry>

    /** The registry starts empty. */
    constructor ()
      ensures styles == map[]
    {
      styles := map[];
    }

    /** `setSymbolsStyles(m)`: replaces the whole table (the tests reset it with `{}`). */
    method SetSymbolsStyles(m: map<int, SymbolEntry>)
      modifies this
      ensures styles == m
    {
      styles := m;
    }

    /** `getSymbolsStyles()`: the whole table. */
    function GetSymbolsStyles(): map<int, SymbolEntry>
      reads this
    {
      styles
    }

    /** `registerStyle(sha, entry)`: stores the entry under the hash; throws, changing nothing,
        when the hash, the entry or the entry's style is missing. */
    method RegisterStyle(sha: Option<int>, entry: Option<SymbolEntry>) returns (r: Outcome)
      modifies this
      ensures r.Pass? <==> sha.Some? && entry.Some? && entry.value.style.Some?
      ensures r.Fail? ==> r.message == RegisterStyleError && styles == old(styles)
      ensures r.Pass? ==> styles == old(styles)[sha.value := entry.value]
    {
      if sha.Some? && entry.Some? && entry.value.style.Some? {
        styles := styles[sha.value := entry.value];
        r := Pass;
      } else {
        r := Fail(RegisterStyleError);
      }
    }

    /** `fetchStyle(sha)`: the style registered under the hash, or nothing. */
    function FetchStyle(sha: int): (r: Option<Fields>)
      reads this
      ensures r.Some? <==> sha in styles && styles[sha].style.Some?
      ensures r.Some? ==> r.value == styles[sha].style.value
    {
      if sha in styles then styles[sha].style else None
    }
  }

  /** The registry tests: after a reset the table is empty; one registration adds exactly one
      key; fetching by the same hash gives back the registered style; registering with no
      arguments throws. */
  method RegisterOneSymbolStyle(sha: int, style: Fields)
    returns (emptyAfterReset: bool, keysAfter: nat, fetched: Option<Fields>, noArgs: Outcome)
    ensures emptyAfterReset && keysAfter == 1
    ensures fetched == Some(style)
    ensures noArgs == Fail(RegisterStyleError)
  {
    var cache := new SymbolStyles();
    cache.SetSymbolsStyles(map[]);
    emptyAfterReset := |cache.GetSymbolsStyles()| == 0;
    var ok := cache.RegisterStyle(Some(sha), Some(SymbolEntry(Some(style), None)));
    keysAfter := |cache.GetSymbolsStyles()|;
    fetched := cache.FetchStyle(sha);
    noArgs := cache.RegisterStyle(None, None);
  }
}
