/**
 * app/api/translate-text/route.ts: the text-keyed translation cache. Unlike
 * the message-scoped cache it has no same-language short cut, and a failed
 * provider call is a 500 instead of a silent fallback.
 */
module TranslateTextRoute {
  import opened Wrappers
  import opened Text
  import opened Lingo
  import opened Store
  import opened Http

  /** The JSON body; each field may be missing. */
  datatype TextRequest = TextRequest(text: Option<string>, sourceLanguage: Option<string>, targetLanguage: Option<string>)

  predicate WellFormed(req: TextRequest) {
    Truthy(req.text) && Truthy(req.sourceLanguage) && Truthy(req.targetLanguage)
  }

  function KeyOf(req: TextRequest): TextKey
    requires WellFormed(req)
  {
    (req.text.value, req.sourceLanguage.value, req.targetLanguage.value)
  }

  const MissingFields: string := "Missing required fields: text, sourceLanguage, targetLanguage"

  /** The outcome of one request: the response, the cache after it, whether the provider was asked. */
  datatype TextStep = TextStep(response: Response<string>, cache: map<TextKey, string>, called: bool)

  /** One `POST`, where `reply` is what the provider answers if asked (None: it throws). */
  function TranslateTextStep(cache: map<TextKey, string>, req: TextRequest, reply: Option<string>): (s: TextStep)
    ensures s.response.BadRequest? <==> !WellFormed(req)
    ensures s.cache.Keys <= cache.Keys + (if WellFormed(req) then {KeyOf(req)} else {})
    ensures forall k :: k in cache ==> k in s.cache && s.cache[k] == cache[k]
    ensures s.response.Ok? ==>
      (KeyOf(req) in cache && s.response.body == cache[KeyOf(req)]) || (s.called && reply == Some(s.response.body))
  {
    if !WellFormed(req) then TextStep(BadRequest(MissingFields), cache, false)
    else if KeyOf(req) in cache then TextStep(Ok(cache[KeyOf(req)]), cache, false)
    else
      match reply
      case Some(t) => TextStep(Ok(t), cache[KeyOf(req) := t], true)
      case None => TextStep(ServerError("Translation failed"), cache, true)
  }

  /** A missing or empty field is a 400 that touches neither the cache nor the provider. */
  lemma InvalidRequestTouchesNothing(cache: map<TextKey, string>, req: TextRequest, reply: Option<string>)
    requires !WellFormed(req)
    ensures TranslateTextStep(cache, req, reply) == TextStep(BadRequest(MissingFields), cache, false)
  {
  }

  /** A hit returns the cached translation; the provider is not asked. */
  lemma HitServedFromCache(cache: map<TextKey, string>, req: TextRequest, reply: Option<string>)
    requires WellFormed(req) && KeyOf(req) in cache
    ensures TranslateTextStep(cache, req, reply) == TextStep(Ok(cache[KeyOf(req)]), cache, false)
  {
  }

  /** A miss stores the provider's answer under the same triple, and a repeat request is then served from the cache. */
  lemma MissStoresThenHits(cache: map<TextKey, string>, req: TextRequest, t: string, reply2: Option<string>)
    requires WellFormed(req) && KeyOf(req) !in cache
    ensures var s1 := TranslateTextStep(cache, req, Some(t));
      && s1 == TextStep(Ok(t), cache[KeyOf(req) := t], true)
      && TranslateTextStep(s1.cache, req, reply2) == TextStep(Ok(t), s1.cache, false)
  {
  }

  /** A failed provider call is a 500 and leaves the cache as it was. */
  lemma FailureIsServerError(cache: map<TextKey, string>, req: TextRequest)
    requires WellFormed(req) && KeyOf(req) !in cache
    ensures TranslateTextStep(cache, req, None) == TextStep(ServerError("Translation failed"), cache, true)
  {
  }

  /** Equal source and target languages still go through the cache and, on a miss, the provider. */
  lemma NoSameLanguageShortCut(cache: map<TextKey, string>, req: TextRequest, reply: Option<string>)
    requires WellFormed(req) && req.sourceLanguage == req.targetLanguage && KeyOf(req) !in cache
    ensures TranslateTextStep(cache, req, reply).called
  {
  }

  /** `POST`: validate, look up the cache, and on a miss ask the provider and store its answer. */
  method Post(db: Database, provider: Provider, req: TextRequest) returns (r: Response<string>)
    requires db.Valid()
    modifies db`translationCache, provider
    ensures db.Valid()
    ensures var s := TranslateTextStep(old(db.translationCache), req, NextReply(old(provider.script)));
      && r == s.response
      && db.translationCache == s.cache
      && provider.calls == old(provider.calls) +
           (if s.called then [LocalizeRequest(req.text.value, req.sourceLanguage.value, req.targetLanguage.value)] else [])
      && provider.script == (if s.called then AfterReply(old(provider.script)) else old(provider.script))
  {
    if !WellFormed(req) {
      return BadRequest(MissingFields);
    }
    var key := KeyOf(req);
    if key in db.translationCache {
      return Ok(db.translationCache[key]);
    }
    var reply := provider.LocalizeText(req.text.value, req.sourceLanguage.value, req.targetLanguage.value);
    match reply
    case Some(t) =>
      db.translationCache := db.translationCache[key := t];
      r := Ok(t);
    case None =>
      r := ServerError("Translation failed");
  }
}
