/**
 * The command-line front end `Cli::new` (src/cli.rs), taking the argument
 * vector as a parameter instead of reading the process environment.
 */
module CommandLine {
  import opened Wrappers

  /** The parsed command line: a search type and a query. */
  datatype Cli = Cli(searchType: string, query: string)

  const Usage: string := "Usage: <search_type> <query>\nSearch types: 'genus' or 'author'"

  /**
   * `Cli::new`: fewer than three arguments (program name included) is a
   * usage error; otherwise the second and third arguments are taken as they
   * are. The search type is not checked against "genus" or "author".
   */
  function New(args: seq<string>): (r: Result<Cli, string>)
    ensures r.Err? <==> |args| < 3
    ensures r.Err? ==> r.error == Usage
    ensures r.Ok? ==> r.value.searchType == args[1] && r.value.query == args[2]
  {
    if |args| < 3 then Err(Usage)
    else Ok(Cli(args[1], args[2]))
  }

  /** The program name and every argument after the third are ignored. */
  lemma OnlySecondAndThirdMatter(args: seq<string>, program: string, extra: seq<string>)
    requires |args| >= 3
    ensures New(args) == New([program] + args[1..3] + extra)
  {
  }

  /** Any search type is accepted, including ones other than "genus" and "author". */
  lemma SearchTypeIsUnchecked(searchType: string, query: string)
    ensures New(["flora", searchType, query]) == Ok(Cli(searchType, query))
  {
  }
}
