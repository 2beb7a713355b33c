/**
 * `NoArgs` (framework/src/no_args.rs): the argument type of fillers that
 * take no arguments.
 */
module NoArgsParser {
  import opened Syntax

  /** Carries no data. */
  datatype NoArgs = NoArgs

  const NoArgsMsg := "No argument expected"

  /** `NoArgs::parse`: succeeds on the empty stream only. */
  function ParseNoArgs(ts: seq<TokenTree>): (r: Result<NoArgs>)
    ensures r.Ok? <==> ts == []
    ensures r.Err? ==> r.msg == NoArgsMsg
  {
    if ts == [] then Ok(NoArgs) else Err(NoArgsMsg)
  }

  /** Whatever token comes first, a non-empty argument list is refused with the same message. */
  lemma NoArgsRejectsAny(t: TokenTree, more: seq<TokenTree>)
    ensures ParseNoArgs([t] + more) == Err(NoArgsMsg)
  {
  }
}
