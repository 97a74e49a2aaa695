/** `analyzeResults`: the language model's report on the executed commands.
    The call itself is an oracle; what is modelled is what it is given and
    that an error never escapes it. */
module Analyzer {
  import opened Text
  import opened Models
  import opened Planner
  import opened Runner

  /** Everything the analysis prompt is built from, including the history
      context of earlier interactions. */
  datatype AnalysisRequest = AnalysisRequest(model: ModelConfig, instruction: string, thinking: seq<string>,
                                             actions: seq<Action>, results: seq<CommandResult>, context: string)

  datatype AnalyzerReply = Analysis(text: string) | AnalyzerFailed(message: string)

  const ErrorPrefix: string := "Error analyzing results: "

  /** The report: the model's text, or a text naming the error. */
  function AnalyzeResults(reply: AnalyzerReply): (analysis: string)
    ensures reply.Analysis? ==> analysis == reply.text
    ensures reply.AnalyzerFailed? ==> StartsWith(analysis, ErrorPrefix) && analysis[|ErrorPrefix|..] == reply.message
  {
    match reply
    case Analysis(text) => text
    case AnalyzerFailed(message) => ErrorPrefix + message
  }
}
