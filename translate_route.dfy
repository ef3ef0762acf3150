/**
 * app/api/translate/route.ts: resolving the target language, then
 * translating one text (`POST`) or a batch of stored messages (`GET`)
 * through the message-scoped cache.
 */
module TranslateRoute {
  import opened Wrappers
  import opened Text
  import opened Identity
  import opened Lingo
  import opened Store
  import opened Http
  import opened Translation

  /**
   * The target language: an explicit one wins; without it, the language of
   * `userId`; with neither, none (a 400).
   */
  function ResolveTarget(dir: Directory, targetLanguage: Option<string>, userId: Option<string>): (r: Option<string>)
    ensures Truthy(targetLanguage) ==> r == targetLanguage
    ensures !Truthy(targetLanguage) && Truthy(userId) ==> r == Some(LanguageOf(dir, userId.value))
    ensures !Truthy(targetLanguage) && !Truthy(userId) ==> r.None?
    ensures r.Some? ==> r.value != ""
  {
    if Truthy(targetLanguage) then targetLanguage
    else if Truthy(userId) then Some(LanguageOf(dir, userId.value))
    else None
  }

  datatype TranslateBody = TranslateBody(
    messageId: Option<string>,
    text: Option<string>,
    sourceLanguage: Option<string>,
    targetLanguage: Option<string>,
    userId: Option<string>)

  datatype TranslateReply = TranslateReply(translatedText: string, sourceLanguage: string, targetLanguage: string)

  /** The cache request `POST` makes: a missing id becomes "temp-" and the clock, a missing source "en". */
  function PostOptions(body: TranslateBody, target: string, now: nat): (o: TranslationOptions)
    requires Truthy(body.text)
    ensures o.messageId == (if Truthy(body.messageId) then body.messageId.value else "temp-" + Decimal(now))
    ensures o.sourceLanguage == (if Truthy(body.sourceLanguage) then body.sourceLanguage.value else "en")
    ensures o.text == body.text.value && o.targetLanguage == target
  {
    TranslationOptions(Or(body.messageId, "temp-" + Decimal(now)), body.text.value, Or(body.sourceLanguage, "en"), target)
  }

  /** `POST`: one text through `translateMessage`; the reply echoes the resolved languages. */
  method Post(db: Database, provider: Provider, dir: Directory, body: TranslateBody, now: nat)
    returns (r: Response<TranslateReply>)
    requires db.Valid()
    modifies db`messageTranslations, provider
    ensures db.Valid()
    ensures !Truthy(body.text) ==> r == BadRequest("Text is required")
    ensures Truthy(body.text) && ResolveTarget(dir, body.targetLanguage, body.userId).None? ==>
      r == BadRequest("Target language is required")
    ensures r.BadRequest? ==>
      db.messageTranslations == old(db.messageTranslations) && unchanged(provider)
    ensures Truthy(body.text) && ResolveTarget(dir, body.targetLanguage, body.userId).Some? ==>
      var target := ResolveTarget(dir, body.targetLanguage, body.userId).value;
      var o := PostOptions(body, target, now);
      var s := TranslateMessageStep(old(db.messageTranslations), o, NextReply(old(provider.script)));
      && r == Ok(TranslateReply(s.result, o.sourceLanguage, target))
      && db.messageTranslations == s.cache
      && provider.calls == old(provider.calls) + (if s.called then [RequestOf(o)] else [])
      && provider.script == (if s.called then AfterReply(old(provider.script)) else old(provider.script))
  {
    if !Truthy(body.text) {
      return BadRequest("Text is required");
    }
    var target := ResolveTarget(dir, body.targetLanguage, body.userId);
    if target.None? {
      return BadRequest("Target language is required");
    }
    var o := PostOptions(body, target.value, now);
    var translated := TranslateMessage(db, provider, o);
    r := Ok(TranslateReply(translated, o.sourceLanguage, target.value));
  }

  /** The ids asked for: none without the parameter, otherwise its comma-separated pieces. */
  function RequestedIds(messageIds: Option<string>): (ids: seq<string>)
    ensures messageIds.None? <==> ids == []
  {
    match messageIds
    case None => []
    case Some(v) => Split(v, ',')
  }

  /** `message.findMany({ where: { id: { in: ids } } })`: stored messages whose id was asked for, in store order. */
  function FoundMessages(ms: seq<Message>, ids: seq<string>): (found: seq<Message>)
    ensures forall m :: m in found <==> m in ms && m.id in ids
    ensures forall m :: multiset(found)[m] == if m.id in ids then multiset(ms)[m] else 0
    ensures |found| <= |ms|
  {
    if ms == [] then []
    else
      assert ms == [ms[0]] + ms[1..];
      (if ms[0].id in ids then [ms[0]] else []) + FoundMessages(ms[1..], ids)
  }

  /** The sender-language map the handler fills: one lookup per distinct sender. */
  function SenderLanguages(dir: Directory, found: seq<Message>): (langs: map<string, string>)
    ensures forall s :: s in langs <==> exists m :: m in found && m.senderId == s
    ensures forall s :: s in langs ==> langs[s] == LanguageOf(dir, s)
  {
    map m | m in found :: m.senderId := LanguageOf(dir, m.senderId)
  }

  function Refs(found: seq<Message>): (refs: seq<MessageRef>)
    ensures |refs| == |found|
    ensures forall i :: 0 <= i < |found| ==> refs[i] == MessageRef(found[i].id, found[i].content, found[i].senderId)
  {
    seq(|found|, i requires 0 <= i < |found| => MessageRef(found[i].id, found[i].content, found[i].senderId))
  }

  /** Every found message is translated from its own sender's language. */
  lemma SourceIsSenderLanguage(dir: Directory, found: seq<Message>, i: nat)
    requires i < |found|
    ensures SourceLanguageOf(SenderLanguages(dir, found), found[i].senderId) == LanguageOf(dir, found[i].senderId)
  {
    assert found[i] in found;
  }

  datatype BatchEntry = BatchEntry(
    messageId: string,
    originalText: string,
    translatedText: string,
    sourceLanguage: string,
    targetLanguage: string)

  datatype BatchReply = BatchReply(translations: seq<BatchEntry>, targetLanguage: string)

  /** `GET`: translate the stored messages named in `messageIds`; ids not found are dropped. */
  method Get(db: Database, provider: Provider, dir: Directory,
             messageIds: Option<string>, targetLanguage: Option<string>, userId: Option<string>)
    returns (r: Response<BatchReply>)
    requires db.Valid()
    modifies db`messageTranslations, provider
    ensures db.Valid()
    ensures messageIds.None? ==> r == BadRequest("Message IDs are required")
    ensures messageIds.Some? && ResolveTarget(dir, targetLanguage, userId).None? ==>
      r == BadRequest("Target language is required")
    ensures r.BadRequest? ==> db.messageTranslations == old(db.messageTranslations) && unchanged(provider)
    ensures messageIds.Some? && ResolveTarget(dir, targetLanguage, userId).Some? ==>
      var target := ResolveTarget(dir, targetLanguage, userId).value;
      var found := FoundMessages(db.messages, RequestedIds(messageIds));
      var run := TranslateSequence(old(db.messageTranslations), old(provider.script),
                                   BatchOptions(Refs(found), target, SenderLanguages(dir, found)));
      && r.Ok? && r.body.targetLanguage == target
      && |r.body.translations| == |found|
      && (forall i :: 0 <= i < |found| ==>
           var e := r.body.translations[i];
           && e.messageId == found[i].id && e.originalText == found[i].content
           && e.translatedText == run.results[i]
           && e.sourceLanguage == LanguageOf(dir, found[i].senderId) && e.targetLanguage == target)
      && db.messageTranslations == run.cache
      && provider.script == run.script
      && provider.calls == old(provider.calls) + run.calls
  {
    var ids := RequestedIds(messageIds);
    if |ids| == 0 {
      return BadRequest("Message IDs are required");
    }
    var target := ResolveTarget(dir, targetLanguage, userId);
    if target.None? {
      return BadRequest("Target language is required");
    }
    var found := FoundMessages(db.messages, ids);
    var langs := SenderLanguages(dir, found);
    var translated := TranslateMultipleMessages(db, provider, Refs(found), target.value, langs);
    r := Ok(BatchReply(Entries(dir, found, translated, target.value), target.value));
  }

  /** The reply rows: each found message with its translation and the languages used. */
  function Entries(dir: Directory, found: seq<Message>, translated: seq<TranslatedContent>, target: string)
    : (es: seq<BatchEntry>)
    requires |translated| == |found|
    ensures |es| == |found|
    ensures forall i :: 0 <= i < |found| ==>
      es[i] == BatchEntry(found[i].id, found[i].content, translated[i].translatedContent,
                          LanguageOf(dir, found[i].senderId), target)
  {
    forall i | 0 <= i < |found| {
      SourceIsSenderLanguage(dir, found, i);
    }
    seq(|found|, i requires 0 <= i < |found| =>
      BatchEntry(found[i].id, found[i].content, translated[i].translatedContent,
                 SourceLanguageOf(SenderLanguages(dir, found), found[i].senderId), target))
  }

  /**
   * A batch whose messages are all cached for the target needs no provider
   * call and writes nothing: each entry is the stored translation, or the
   * content itself when the sender's language is the target.
   */
  lemma CachedBatchNeedsNoProvider(cache: map<MessageKey, MessageTranslation>, script: seq<Option<string>>,
                                   dir: Directory, found: seq<Message>, target: string)
    requires forall i :: 0 <= i < |found| ==> (found[i].id, target) in cache
    ensures var run := TranslateSequence(cache, script, BatchOptions(Refs(found), target, SenderLanguages(dir, found)));
      && run.calls == [] && run.cache == cache && run.script == script
      && forall i :: 0 <= i < |found| ==>
           run.results[i] == if LanguageOf(dir, found[i].senderId) == target then found[i].content
                             else cache[(found[i].id, target)].translatedText
  {
    var os := BatchOptions(Refs(found), target, SenderLanguages(dir, found));
    forall i | 0 <= i < |found|
      ensures KeyOf(os[i]) == (found[i].id, target) && os[i].text == found[i].content
      ensures os[i].sourceLanguage == LanguageOf(dir, found[i].senderId)
    {
      SourceIsSenderLanguage(dir, found, i);
    }
    CachedRunNeedsNoProvider(cache, script, os);
  }

  /** A present but empty `messageIds` splits to one empty id and passes the 400 check. */
  lemma EmptyIdsParameterPasses()
    ensures RequestedIds(Some("")) == [""]
  {
  }
}
