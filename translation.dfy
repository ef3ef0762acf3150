/**
 * lib/translation.ts: the message-scoped translation cache in front of the
 * provider (`translateMessage`), its use over a list of messages
 * (`translateMultipleMessages`) and the language lookup of a user.
 */
module Translation {
  import opened Wrappers
  import opened Text
  import opened Identity
  import opened Lingo
  import opened Store

  datatype TranslationOptions = TranslationOptions(
    messageId: string,
    text: string,
    sourceLanguage: string,
    targetLanguage: string)

  function KeyOf(o: TranslationOptions): MessageKey {
    (o.messageId, o.targetLanguage)
  }

  function RequestOf(o: TranslationOptions): LocalizeRequest {
    LocalizeRequest(o.text, o.sourceLanguage, o.targetLanguage)
  }

  /** The outcome of one `translateMessage` call: the text returned, the cache after it, whether the provider was asked. */
  datatype CacheStep = CacheStep(result: string, cache: map<MessageKey, MessageTranslation>, called: bool)

  /**
   * `translateMessage` on the cache `cache`, where `reply` is what the
   * provider answers if it is asked (None: the call throws).
   */
  function TranslateMessageStep(cache: map<MessageKey, MessageTranslation>, o: TranslationOptions, reply: Option<string>): (s: CacheStep)
    ensures s.result == o.text
         || (KeyOf(o) in cache && s.result == cache[KeyOf(o)].translatedText)
         || (s.called && reply == Some(s.result))
  {
    if o.sourceLanguage == o.targetLanguage then CacheStep(o.text, cache, false)
    else if KeyOf(o) in cache then CacheStep(cache[KeyOf(o)].translatedText, cache, false)
    else
      match reply
      case Some(t) =>
        CacheStep(t, cache[KeyOf(o) := MessageTranslation(o.messageId, o.targetLanguage, o.text, t, o.sourceLanguage)], true)
      case None => CacheStep(o.text, cache, true)
  }

  /**
   * Rows are never overwritten or removed: a call at most adds the row for its
   * own (messageId, targetLanguage), and keeps every row under its own key.
   */
  lemma StepKeepsRows(cache: map<MessageKey, MessageTranslation>, o: TranslationOptions, reply: Option<string>)
    ensures var s := TranslateMessageStep(cache, o, reply);
      && (forall k :: k in cache ==> k in s.cache && s.cache[k] == cache[k])
      && s.cache.Keys <= cache.Keys + {KeyOf(o)}
      && (WellKeyed(cache) ==> WellKeyed(s.cache))
  {
  }

  /** Equal languages: the text comes back as it is, with no cache read, no provider call and no write. */
  lemma SameLanguageShortCircuits(cache: map<MessageKey, MessageTranslation>, o: TranslationOptions, reply: Option<string>)
    requires o.sourceLanguage == o.targetLanguage
    ensures TranslateMessageStep(cache, o, reply) == CacheStep(o.text, cache, false)
  {
  }

  /** A hit returns the stored translation without asking the provider, whatever text the caller passes now. */
  lemma HitNeedsNoProvider(cache: map<MessageKey, MessageTranslation>, o: TranslationOptions, reply: Option<string>)
    requires o.sourceLanguage != o.targetLanguage && KeyOf(o) in cache
    ensures TranslateMessageStep(cache, o, reply) == CacheStep(cache[KeyOf(o)].translatedText, cache, false)
  {
  }

  /** A miss answered by the provider writes exactly one row, under (messageId, targetLanguage), and returns the answer. */
  lemma MissWritesOneEntry(cache: map<MessageKey, MessageTranslation>, o: TranslationOptions, t: string)
    requires o.sourceLanguage != o.targetLanguage && KeyOf(o) !in cache
    ensures var s := TranslateMessageStep(cache, o, Some(t));
      && s.called && s.result == t
      && s.cache.Keys == cache.Keys + {KeyOf(o)}
      && s.cache[KeyOf(o)] == MessageTranslation(o.messageId, o.targetLanguage, o.text, t, o.sourceLanguage)
  {
  }

  /** A failing provider call degrades to the original text and writes nothing. */
  lemma FailureFallsBack(cache: map<MessageKey, MessageTranslation>, o: TranslationOptions)
    ensures var s := TranslateMessageStep(cache, o, None);
      s.cache == cache && (s.result == o.text || (KeyOf(o) in cache && s.result == cache[KeyOf(o)].translatedText))
  {
  }

  /**
   * Once a call has been answered, a second call for the same message and
   * target language is a hit: it returns the same text and asks no one.
   */
  lemma SecondCallIsHit(cache: map<MessageKey, MessageTranslation>, o1: TranslationOptions, o2: TranslationOptions,
                        reply1: Option<string>, reply2: Option<string>)
    requires KeyOf(o1) == KeyOf(o2)
    requires o1.sourceLanguage != o1.targetLanguage && o2.sourceLanguage != o2.targetLanguage
    requires reply1.Some? || KeyOf(o1) in cache
    ensures var s1 := TranslateMessageStep(cache, o1, reply1);
      var s2 := TranslateMessageStep(s1.cache, o2, reply2);
      !s2.called && s2.result == s1.result && s2.cache == s1.cache
  {
  }

  /** A failed call leaves the miss in place, so the next call asks the provider again. */
  lemma RetryAfterFailure(cache: map<MessageKey, MessageTranslation>, o: TranslationOptions, reply2: Option<string>)
    requires o.sourceLanguage != o.targetLanguage && KeyOf(o) !in cache
    ensures var s1 := TranslateMessageStep(cache, o, None);
      s1.called && TranslateMessageStep(s1.cache, o, reply2).called
  {
  }

  /** A run of sequential calls: the texts returned, the cache and script after them, and the provider's replies and requests. */
  datatype Run = Run(
    results: seq<string>,
    cache: map<MessageKey, MessageTranslation>,
    script: seq<Option<string>>,
    replies: seq<Option<string>>,
    calls: seq<LocalizeRequest>)

  /** The run `prev` followed by one more call `o`. */
  function Extend(prev: Run, o: TranslationOptions): (r: Run)
    ensures |r.results| == |prev.results| + 1 && r.results[..|prev.results|] == prev.results
  {
    var reply := NextReply(prev.script);
    var s := TranslateMessageStep(prev.cache, o, reply);
    if s.called then
      Run(prev.results + [s.result], s.cache, AfterReply(prev.script), prev.replies + [reply], prev.calls + [RequestOf(o)])
    else
      Run(prev.results + [s.result], s.cache, prev.script, prev.replies, prev.calls)
  }

  /** The calls `os[0]`, `os[1]`, ... made one after the other, the provider answering from `script`. */
  function TranslateSequence(cache: map<MessageKey, MessageTranslation>, script: seq<Option<string>>,
                             os: seq<TranslationOptions>): (r: Run)
    ensures |r.results| == |os|
    ensures |r.replies| == |r.calls|
    decreases |os|
  {
    if os == [] then Run([], cache, script, [], [])
    else Extend(TranslateSequence(cache, script, os[..|os| - 1]), os[|os| - 1])
  }

  function Successes(replies: seq<Option<string>>): nat {
    if replies == [] then 0
    else Successes(replies[..|replies| - 1]) + (if replies[|replies| - 1].Some? then 1 else 0)
  }

  /**
   * However many sequential calls are made for one (messageId, targetLanguage)
   * with differing languages, at most one of them gets a successful provider
   * answer; if the pair is cached already, none of them reaches the provider.
   */
  lemma {:induction false} AtMostOneSuccessfulCall(cache: map<MessageKey, MessageTranslation>, script: seq<Option<string>>,
                                                   os: seq<TranslationOptions>, key: MessageKey)
    requires forall i :: 0 <= i < |os| ==> KeyOf(os[i]) == key && os[i].sourceLanguage != os[i].targetLanguage
    ensures var r := TranslateSequence(cache, script, os);
      && Successes(r.replies) <= 1
      && (Successes(r.replies) == 1 ==> key in r.cache)
      && (key in cache ==> r.calls == [] && r.cache == cache)
  {
    if os != [] {
      var init, o := os[..|os| - 1], os[|os| - 1];
      AtMostOneSuccessfulCall(cache, script, init, key);
      var prev := TranslateSequence(cache, script, init);
      var reply := NextReply(prev.script);
      var st := TranslateMessageStep(prev.cache, o, reply);
      assert TranslateSequence(cache, script, os) == Extend(prev, o);
      if key in prev.cache {
        HitNeedsNoProvider(prev.cache, o, reply);
      } else {
        SuccessesSnoc(prev.replies, reply);
        if reply.Some? {
          MissWritesOneEntry(prev.cache, o, reply.value);
        }
      }
    }
  }

  /**
   * Calls whose (messageId, targetLanguage) are all cached beforehand never
   * reach the provider and write nothing: each returns its text (equal
   * languages) or the stored translation.
   */
  lemma {:induction false} CachedRunNeedsNoProvider(cache: map<MessageKey, MessageTranslation>, script: seq<Option<string>>,
                                                    os: seq<TranslationOptions>)
    requires forall i :: 0 <= i < |os| ==> KeyOf(os[i]) in cache
    ensures var r := TranslateSequence(cache, script, os);
      && r.calls == [] && r.cache == cache && r.script == script
      && forall i :: 0 <= i < |os| ==>
           r.results[i] == if os[i].sourceLanguage == os[i].targetLanguage then os[i].text
                           else cache[KeyOf(os[i])].translatedText
  {
    if os != [] {
      var init, o := os[..|os| - 1], os[|os| - 1];
      CachedRunNeedsNoProvider(cache, script, init);
      var prev := TranslateSequence(cache, script, init);
      assert TranslateSequence(cache, script, os) == Extend(prev, o);
      if o.sourceLanguage == o.targetLanguage {
        SameLanguageShortCircuits(cache, o, NextReply(script));
      } else {
        HitNeedsNoProvider(cache, o, NextReply(script));
      }
      forall i | 0 <= i < |init|
        ensures init[i] == os[i]
      {
      }
    }
  }

  lemma SuccessesSnoc(replies: seq<Option<string>>, reply: Option<string>)
    ensures Successes(replies + [reply]) == Successes(replies) + (if reply.Some? then 1 else 0)
  {
    assert (replies + [reply])[..|replies|] == replies;
  }

  /** The sender's language as recorded in the map, or "en" when it is absent or empty. */
  function SourceLanguageOf(senderLanguages: map<string, string>, senderId: string): (lang: string)
    ensures senderId in senderLanguages && senderLanguages[senderId] != "" ==> lang == senderLanguages[senderId]
    ensures senderId !in senderLanguages || senderLanguages[senderId] == "" ==> lang == "en"
  {
    if senderId in senderLanguages && senderLanguages[senderId] != "" then senderLanguages[senderId] else "en"
  }

  /** The message shape `translateMultipleMessages` takes. */
  datatype MessageRef = MessageRef(id: string, content: string, senderId: string)

  datatype TranslatedContent = TranslatedContent(id: string, translatedContent: string)

  /** The `translateMessage` request made for each message, in order. */
  function BatchOptions(ms: seq<MessageRef>, targetLanguage: string, senderLanguages: map<string, string>): (os: seq<TranslationOptions>)
    ensures |os| == |ms|
    ensures forall i :: 0 <= i < |ms| ==>
      os[i] == TranslationOptions(ms[i].id, ms[i].content, SourceLanguageOf(senderLanguages, ms[i].senderId), targetLanguage)
  {
    seq(|ms|, i requires 0 <= i < |ms| =>
      TranslationOptions(ms[i].id, ms[i].content, SourceLanguageOf(senderLanguages, ms[i].senderId), targetLanguage))
  }

  /** `getLanguageFromUserId`: the user's metadata language, or "en" when it is missing or the lookup fails. */
  function LanguageOf(dir: Directory, userId: string): (lang: string)
    ensures lang != ""
    ensures GetUserById(dir, userId).Some? && Truthy(GetUserById(dir, userId).value.metadata.language) ==>
      lang == GetUserById(dir, userId).value.metadata.language.value
    ensures GetUserById(dir, userId).None? || !Truthy(GetUserById(dir, userId).value.metadata.language) ==>
      lang == "en"
  {
    match GetUserById(dir, userId)
    case Some(u) => Or(u.metadata.language, "en")
    case None => "en"
  }

  /** `translateMessage`: read the cache, and on a miss ask the provider and store its answer. */
  method TranslateMessage(db: Database, provider: Provider, o: TranslationOptions) returns (text: string)
    requires db.Valid()
    modifies db`messageTranslations, provider
    ensures db.Valid()
    ensures var s := TranslateMessageStep(old(db.messageTranslations), o, NextReply(old(provider.script)));
      && text == s.result
      && db.messageTranslations == s.cache
      && provider.calls == old(provider.calls) + (if s.called then [RequestOf(o)] else [])
      && provider.script == (if s.called then AfterReply(old(provider.script)) else old(provider.script))
  {
    StepKeepsRows(db.messageTranslations, o, NextReply(provider.script));
    if o.sourceLanguage == o.targetLanguage {
      return o.text;
    }
    if KeyOf(o) in db.messageTranslations {
      return db.messageTranslations[KeyOf(o)].translatedText;
    }
    var reply := provider.LocalizeText(o.text, o.sourceLanguage, o.targetLanguage);
    match reply
    case Some(t) =>
      db.messageTranslations := db.messageTranslations[KeyOf(o) :=
        MessageTranslation(o.messageId, o.targetLanguage, o.text, t, o.sourceLanguage)];
      text := t;
    case None =>
      text := o.text;
  }

  /** One more call of a sequential run: the state after it is the run extended by `o`. */
  method TranslateNext(db: Database, provider: Provider, o: TranslationOptions, ghost run: Run,
                       ghost base: seq<LocalizeRequest>)
    returns (t: string)
    requires db.Valid()
    requires db.messageTranslations == run.cache && provider.script == run.script && provider.calls == base + run.calls
    modifies db`messageTranslations, provider
    ensures db.Valid()
    ensures var r := Extend(run, o);
      && r.results == run.results + [t]
      && db.messageTranslations == r.cache && provider.script == r.script && provider.calls == base + r.calls
  {
    t := TranslateMessage(db, provider, o);
    assert Extend(run, o).results == run.results + [t];
  }

  /** A run over one more call is the shorter run extended by that call. */
  lemma SequenceStep(cache: map<MessageKey, MessageTranslation>, script: seq<Option<string>>,
                     os: seq<TranslationOptions>, i: nat)
    requires i < |os|
    ensures TranslateSequence(cache, script, os[..i + 1]) == Extend(TranslateSequence(cache, script, os[..i]), os[i])
  {
    assert os[..i + 1][..i] == os[..i];
  }

  /** The calls `os` made one after the other: the texts returned and the state after them are the sequential run's. */
  method TranslateAll(db: Database, provider: Provider, os: seq<TranslationOptions>) returns (results: seq<string>)
    requires db.Valid()
    modifies db`messageTranslations, provider
    ensures db.Valid()
    ensures var run := TranslateSequence(old(db.messageTranslations), old(provider.script), os);
      && results == run.results
      && db.messageTranslations == run.cache
      && provider.script == run.script
      && provider.calls == old(provider.calls) + run.calls
  {
    ghost var run := TranslateSequence(db.messageTranslations, provider.script, []);
    results := [];
    var i := 0;
    while i < |os|
      invariant 0 <= i <= |os| && db.Valid()
      invariant run == TranslateSequence(old(db.messageTranslations), old(provider.script), os[..i])
      invariant results == run.results
      invariant db.messageTranslations == run.cache && provider.script == run.script
      invariant provider.calls == old(provider.calls) + run.calls
    {
      var t := TranslateNext(db, provider, os[i], run, old(provider.calls));
      SequenceStep(old(db.messageTranslations), old(provider.script), os, i);
      run := Extend(run, os[i]);
      results := results + [t];
      i := i + 1;
    }
    assert os[..|os|] == os;
  }

  /**
   * `translateMultipleMessages`: one result per message, in order, each
   * translated from its sender's language (the concurrent fan-out is run
   * one message after the other).
   */
  method TranslateMultipleMessages(db: Database, provider: Provider, ms: seq<MessageRef>,
                                   targetLanguage: string, senderLanguages: map<string, string>)
    returns (rs: seq<TranslatedContent>)
    requires db.Valid()
    modifies db`messageTranslations, provider
    ensures db.Valid()
    ensures |rs| == |ms| && forall i :: 0 <= i < |ms| ==> rs[i].id == ms[i].id
    ensures var run := TranslateSequence(old(db.messageTranslations), old(provider.script),
                                         BatchOptions(ms, targetLanguage, senderLanguages));
      && (forall i :: 0 <= i < |ms| ==> rs[i].translatedContent == run.results[i])
      && db.messageTranslations == run.cache
      && provider.script == run.script
      && provider.calls == old(provider.calls) + run.calls
  {
    var os := BatchOptions(ms, targetLanguage, senderLanguages);
    var results := TranslateAll(db, provider, os);
    rs := seq(|ms|, i requires 0 <= i < |ms| => TranslatedContent(ms[i].id, results[i]));
  }
}
