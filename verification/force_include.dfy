/** The serverless-webpack `includeModules.forceInclude` list the plugin extends. */
module ForceInclude {
  import opened Wrappers

  /** The list after `preProcessServerlessWebPackDeployment` adds `spec`: appended, or created. */
  function AddForceInclude(list: Option<seq<string>>, spec: string): (r: seq<string>)
    ensures list.None? ==> r == [spec]
    ensures list.Some? ==> |r| == |list.value| + 1 && r[..|list.value|] == list.value
    ensures r[|r| - 1] == spec
  {
    match list
    case None => [spec]
    case Some(entries) => entries + [spec]
  }

  /** No de-duplication: every addition adds one more occurrence of the specifier. */
  lemma AddCountsOnce(list: Option<seq<string>>, spec: string)
    ensures multiset(AddForceInclude(list, spec))[spec] == multiset(list.GetOr([]))[spec] + 1
  {
  }
}
