/**
 * The external translation service (`lingoDotDev.localizeText`). Its answers
 * are not computable here, so the provider is scripted: `script` lists the
 * replies it will give to the coming calls (None: the call throws), and
 * `calls` records every request it has received.
 */
module Lingo {
  import opened Wrappers

  datatype LocalizeRequest = LocalizeRequest(text: string, sourceLocale: string, targetLocale: string)

  /** The reply the next call gets; a provider with nothing more to say fails. */
  function NextReply(script: seq<Option<string>>): Option<string> {
    if script == [] then None else script[0]
  }

  /** The replies left once the next call has been answered. */
  function AfterReply(script: seq<Option<string>>): (rest: seq<Option<string>>)
    ensures script != [] ==> script == [script[0]] + rest
    ensures script == [] ==> rest == []
  {
    if script == [] then [] else script[1..]
  }

  class Provider {
    var script: seq<Option<string>>
    var calls: seq<LocalizeRequest>

    constructor (replies: seq<Option<string>>)
      ensures script == replies && calls == []
    {
      script := replies;
      calls := [];
    }

    /** `localizeText(text, { sourceLocale, targetLocale })`: one call, answered from the script. */
    method LocalizeText(text: string, sourceLocale: string, targetLocale: string) returns (r: Option<string>)
      modifies this
      ensures r == NextReply(old(script))
      ensures script == AfterReply(old(script))
      ensures calls == old(calls) + [LocalizeRequest(text, sourceLocale, targetLocale)]
    {
      r := NextReply(script);
      script := AfterReply(script);
      calls := calls + [LocalizeRequest(text, sourceLocale, targetLocale)];
    }
  }
}
