/** The multi-image branch of `POST /send`: every URL is fetched and sent in
    turn, a failure of either step is swallowed and the loop goes on, only the
    first image carries the message as caption, and a one-second pause follows
    each successful send except the last image's. `fetch(i)` and `send(i)` are
    the outcomes of the calls for image `i`. */
module Batch {
  import opened Values
  import opened Effects
  import Session

  const PauseMs: int := 1000

  /** The caption of image `i`: the message on the first image when it is
      truthy, '' on every other. */
  function Caption(message: Json, i: nat): Json {
    if i == 0 && Truthy(message) then message else Str("")
  }

  /** The calls made for image `i`: the fetch; the send when the fetch
      succeeded; the pause when the send also succeeded and more images follow. */
  function ImageStep(chatId: string, urls: seq<Json>, message: Json,
                     fetch: nat -> Result<()>, send: nat -> Result<()>, i: nat): seq<Effect>
    requires i < |urls|
  {
    [FetchMedia(urls[i], Picture)]
    + if fetch(i).Err? then []
      else [SendMedia(chatId, urls[i], Caption(message, i))]
           + if send(i).Ok? && i < |urls| - 1 then [Pause(PauseMs)] else []
  }

  /** The calls made for the first `k` images. */
  function BatchPrefix(chatId: string, urls: seq<Json>, message: Json,
                       fetch: nat -> Result<()>, send: nat -> Result<()>, k: nat): seq<Effect>
    requires k <= |urls|
  {
    if k == 0 then []
    else BatchPrefix(chatId, urls, message, fetch, send, k - 1)
         + ImageStep(chatId, urls, message, fetch, send, k - 1)
  }

  /** The URLs fetched, in the order they are fetched. */
  function Fetched(t: seq<Effect>): seq<Json> {
    if t == [] then []
    else (if t[0].FetchMedia? then [t[0].url] else []) + Fetched(t[1..])
  }

  lemma {:induction false} FetchedAppend(a: seq<Effect>, b: seq<Effect>)
    ensures Fetched(a + b) == Fetched(a) + Fetched(b)
    decreases |a|
  {
    if a == [] {
      assert a + b == b;
    } else {
      assert (a + b)[0] == a[0] && (a + b)[1..] == a[1..] + b;
      FetchedAppend(a[1..], b);
    }
  }

  lemma {:induction false} FetchedNone(t: seq<Effect>)
    requires forall j :: 0 <= j < |t| ==> !t[j].FetchMedia?
    ensures Fetched(t) == []
  {
    if t != [] {
      FetchedNone(t[1..]);
    }
  }

  /** Every URL is fetched exactly once, in list order, whatever fails. */
  lemma {:induction false} EveryUrlAttemptedInOrder(chatId: string, urls: seq<Json>, message: Json,
                                                    fetch: nat -> Result<()>, send: nat -> Result<()>,
                                                    k: nat)
    requires k <= |urls|
    ensures Fetched(BatchPrefix(chatId, urls, message, fetch, send, k)) == urls[..k]
  {
    if k == 0 {
      assert Fetched(BatchPrefix(chatId, urls, message, fetch, send, 0)) == Fetched([]);
    } else {
      EveryUrlAttemptedInOrder(chatId, urls, message, fetch, send, k - 1);
      FetchedStep(chatId, urls, message, fetch, send, k - 1);
    }
  }

  /** Image `k` adds exactly one fetch, of its own URL. */
  lemma FetchedStep(chatId: string, urls: seq<Json>, message: Json,
                    fetch: nat -> Result<()>, send: nat -> Result<()>, k: nat)
    requires k < |urls|
    requires Fetched(BatchPrefix(chatId, urls, message, fetch, send, k)) == urls[..k]
    ensures Fetched(BatchPrefix(chatId, urls, message, fetch, send, k + 1)) == urls[..k + 1]
  {
    assert urls[..k + 1] == urls[..k] + [urls[k]];
    var step := ImageStep(chatId, urls, message, fetch, send, k);
    FetchedAppend(BatchPrefix(chatId, urls, message, fetch, send, k), step);
    FetchedAppend([step[0]], step[1..]);
    assert [step[0]] + step[1..] == step;
    FetchedNone(step[1..]);
  }

  /** The sends the loop owes for the first `k` images: one per image whose
      fetch succeeded, in list order, each with that image's URL and caption. */
  function SendsUpTo(chatId: string, urls: seq<Json>, message: Json,
                     fetch: nat -> Result<()>, k: nat): seq<Effect>
    requires k <= |urls|
  {
    if k == 0 then []
    else SendsUpTo(chatId, urls, message, fetch, k - 1)
         + if fetch(k - 1).Ok? then [SendMedia(chatId, urls[k - 1], Caption(message, k - 1))] else []
  }

  /** The media sent, in the order they are sent. */
  function Sent(t: seq<Effect>): seq<Effect> {
    if t == [] then []
    else (if t[0].SendMedia? then [t[0]] else []) + Sent(t[1..])
  }

  lemma {:induction false} SentAppend(a: seq<Effect>, b: seq<Effect>)
    ensures Sent(a + b) == Sent(a) + Sent(b)
    decreases |a|
  {
    if a == [] {
      assert a + b == b;
    } else {
      assert (a + b)[0] == a[0] && (a + b)[1..] == a[1..] + b;
      SentAppend(a[1..], b);
    }
  }

  /** Image `i` is sent, with its own caption, exactly when its fetch succeeded. */
  lemma ImageStepSends(chatId: string, urls: seq<Json>, message: Json,
                       fetch: nat -> Result<()>, send: nat -> Result<()>, i: nat)
    requires i < |urls|
    ensures Sent(ImageStep(chatId, urls, message, fetch, send, i))
      == if fetch(i).Ok? then [SendMedia(chatId, urls[i], Caption(message, i))] else []
  {
    var step := ImageStep(chatId, urls, message, fetch, send, i);
    assert step[1..] == if fetch(i).Err? then []
      else [SendMedia(chatId, urls[i], Caption(message, i))]
           + if send(i).Ok? && i < |urls| - 1 then [Pause(PauseMs)] else [];
    if fetch(i).Ok? {
      var pause: seq<Effect> := if send(i).Ok? && i < |urls| - 1 then [Pause(PauseMs)] else [];
      assert step[1..][1..] == pause;
      if pause != [] {
        assert pause[1..] == [];
      }
      assert Sent(pause) == [];
    }
  }

  /** The sends of the first `k + 1` images extend those of the first `k`
      by image `k`'s send, when its fetch succeeded. */
  lemma SentStep(chatId: string, urls: seq<Json>, message: Json,
                 fetch: nat -> Result<()>, send: nat -> Result<()>, k: nat)
    requires k < |urls|
    ensures Sent(BatchPrefix(chatId, urls, message, fetch, send, k + 1))
      == Sent(BatchPrefix(chatId, urls, message, fetch, send, k))
         + if fetch(k).Ok? then [SendMedia(chatId, urls[k], Caption(message, k))] else []
  {
    SentAppend(BatchPrefix(chatId, urls, message, fetch, send, k),
               ImageStep(chatId, urls, message, fetch, send, k));
    ImageStepSends(chatId, urls, message, fetch, send, k);
  }

  /** The sends of the first `k` images are exactly the ones owed: one per
      successful fetch, in list order, each with its own image's URL and
      caption; a failed send does not stop the next image. */
  lemma {:induction false} SendsFollowFetches(chatId: string, urls: seq<Json>, message: Json,
                                              fetch: nat -> Result<()>, send: nat -> Result<()>,
                                              k: nat)
    requires k <= |urls|
    ensures Sent(BatchPrefix(chatId, urls, message, fetch, send, k))
      == SendsUpTo(chatId, urls, message, fetch, k)
  {
    if k == 0 {
      assert Sent(BatchPrefix(chatId, urls, message, fetch, send, 0)) == Sent([]);
    } else {
      SendsFollowFetches(chatId, urls, message, fetch, send, k - 1);
      SentStep(chatId, urls, message, fetch, send, k - 1);
    }
  }

  /** Every image whose fetch succeeded is among the sends owed. */
  lemma {:induction false} FetchedImagesAreSent(chatId: string, urls: seq<Json>, message: Json,
                                                fetch: nat -> Result<()>, k: nat, i: nat)
    requires i < k <= |urls|
    requires fetch(i).Ok?
    ensures SendMedia(chatId, urls[i], Caption(message, i)) in SendsUpTo(chatId, urls, message, fetch, k)
  {
    if i < k - 1 {
      FetchedImagesAreSent(chatId, urls, message, fetch, k - 1, i);
    }
  }

  /** Among the sends owed, only the first can carry a caption other than
      '', and only when it is image 0 and the message is truthy; when image 0
      was fetched it is the first sent, with `Caption(message, 0)`. */
  lemma {:induction false} SendsUpToCaptions(chatId: string, urls: seq<Json>, message: Json,
                                             fetch: nat -> Result<()>, k: nat)
    requires k <= |urls|
    ensures var sent := SendsUpTo(chatId, urls, message, fetch, k);
      forall j :: 0 <= j < |sent| && sent[j].SendMedia? && sent[j].caption != Str("") ==>
        j == 0 && fetch(0).Ok? && Truthy(message) && sent[j] == SendMedia(chatId, urls[0], message)
    ensures var sent := SendsUpTo(chatId, urls, message, fetch, k);
      k > 0 && fetch(0).Ok? ==>
        |sent| > 0 && sent[0] == SendMedia(chatId, urls[0], Caption(message, 0))
  {
    if k > 0 {
      SendsUpToCaptions(chatId, urls, message, fetch, k - 1);
      var prev := SendsUpTo(chatId, urls, message, fetch, k - 1);
      var sent := SendsUpTo(chatId, urls, message, fetch, k);
      forall j | 0 <= j < |sent| && sent[j].SendMedia? && sent[j].caption != Str("")
        ensures j == 0 && fetch(0).Ok? && Truthy(message) && sent[j] == SendMedia(chatId, urls[0], message)
      {
        if j < |prev| {
          assert sent[j] == prev[j];
        } else {
          assert sent[j] == SendMedia(chatId, urls[k - 1], Caption(message, k - 1));
          assert k - 1 == 0;
        }
      }
      if k > 1 && fetch(0).Ok? {
        assert sent[0] == prev[0];
      }
    }
  }

  /** No image but the first carries a caption other than '', the one that
      does carries the message, and when the first image is fetched it is
      the first one sent, with the message as caption if that is truthy. */
  lemma {:induction false} CaptionOnlyOnFirst(chatId: string, urls: seq<Json>, message: Json,
                                              fetch: nat -> Result<()>, send: nat -> Result<()>,
                                              k: nat)
    requires k <= |urls|
    ensures forall e | e in BatchPrefix(chatId, urls, message, fetch, send, k) ::
      e.SendMedia? && e.caption != Str("") ==>
        e == SendMedia(chatId, urls[0], message) && Truthy(message)
    ensures var sent := Sent(BatchPrefix(chatId, urls, message, fetch, send, k));
      forall j :: 0 <= j < |sent| && sent[j].SendMedia? && sent[j].caption != Str("") ==>
        j == 0 && fetch(0).Ok? && Truthy(message) && sent[j] == SendMedia(chatId, urls[0], message)
    ensures var sent := Sent(BatchPrefix(chatId, urls, message, fetch, send, k));
      k > 0 && fetch(0).Ok? ==>
        |sent| > 0 && sent[0] == SendMedia(chatId, urls[0], Caption(message, 0))
  {
    CaptionedSendsFirst(chatId, urls, message, fetch, send, k);
    SendsFollowFetches(chatId, urls, message, fetch, send, k);
    SendsUpToCaptions(chatId, urls, message, fetch, k);
  }

  /** Every send with a caption other than '' is image 0's, with the message. */
  lemma {:induction false} CaptionedSendsFirst(chatId: string, urls: seq<Json>, message: Json,
                                               fetch: nat -> Result<()>, send: nat -> Result<()>,
                                               k: nat)
    requires k <= |urls|
    ensures forall e | e in BatchPrefix(chatId, urls, message, fetch, send, k) ::
      e.SendMedia? && e.caption != Str("") ==>
        e == SendMedia(chatId, urls[0], message) && Truthy(message)
  {
    if k > 0 {
      CaptionedSendsFirst(chatId, urls, message, fetch, send, k - 1);
      var step := ImageStep(chatId, urls, message, fetch, send, k - 1);
      assert forall e | e in step :: e.SendMedia? ==>
        e == SendMedia(chatId, urls[k - 1], Caption(message, k - 1));
    }
  }

  /** The image after which each pause in `t` is taken: a pause belongs to
      the image whose fetch last preceded it, counting from `fetched` images
      already fetched before `t`. */
  function Pauses(t: seq<Effect>, fetched: int): set<int> {
    if t == [] then {}
    else if t[0].FetchMedia? then Pauses(t[1..], fetched + 1)
    else if t[0].Pause? then {fetched - 1} + Pauses(t[1..], fetched)
    else Pauses(t[1..], fetched)
  }

  /** The images after which a pause is taken. */
  function PausedAfter(t: seq<Effect>): set<int> {
    Pauses(t, 0)
  }

  lemma {:induction false} PausesAppend(a: seq<Effect>, b: seq<Effect>, fetched: int)
    ensures Pauses(a + b, fetched) == Pauses(a, fetched) + Pauses(b, fetched + |Fetched(a)|)
    decreases |a|
  {
    if a == [] {
      assert a + b == b;
    } else {
      assert (a + b)[0] == a[0] && (a + b)[1..] == a[1..] + b;
      if a[0].FetchMedia? {
        PausesAppend(a[1..], b, fetched + 1);
      } else {
        PausesAppend(a[1..], b, fetched);
      }
    }
  }

  /** Image `i` is followed by a pause exactly when it was fetched and sent
      and is not the last. */
  lemma ImageStepPauses(chatId: string, urls: seq<Json>, message: Json,
                        fetch: nat -> Result<()>, send: nat -> Result<()>, i: nat)
    requires i < |urls|
    ensures Pauses(ImageStep(chatId, urls, message, fetch, send, i), i)
      == if fetch(i).Ok? && send(i).Ok? && i < |urls| - 1 then {i} else {}
  {
    var step := ImageStep(chatId, urls, message, fetch, send, i);
    var rest := if fetch(i).Err? then []
      else [SendMedia(chatId, urls[i], Caption(message, i))]
           + if send(i).Ok? && i < |urls| - 1 then [Pause(PauseMs)] else [];
    assert step[1..] == rest;
    if fetch(i).Ok? {
      var pause: seq<Effect> := if send(i).Ok? && i < |urls| - 1 then [Pause(PauseMs)] else [];
      assert rest[1..] == pause;
      assert Pauses(step, i) == Pauses(rest, i + 1) == Pauses(pause, i + 1);
      if pause != [] {
        assert pause[1..] == [];
        assert Pauses(pause, i + 1) == {i} + Pauses([], i + 1);
      }
    }
  }

  /** A pause follows image `i` exactly when its fetch and its send both
      succeeded and another image follows it in the list. */
  lemma {:induction false} PauseAfterEachSentImage(chatId: string, urls: seq<Json>, message: Json,
                                                   fetch: nat -> Result<()>, send: nat -> Result<()>,
                                                   k: nat)
    requires k <= |urls|
    ensures forall i :: i in PausedAfter(BatchPrefix(chatId, urls, message, fetch, send, k)) <==>
      0 <= i < k && i < |urls| - 1 && fetch(i).Ok? && send(i).Ok?
  {
    if k == 0 {
      assert PausedAfter(BatchPrefix(chatId, urls, message, fetch, send, 0)) == Pauses([], 0);
    } else {
      PauseAfterEachSentImage(chatId, urls, message, fetch, send, k - 1);
      PausesStep(chatId, urls, message, fetch, send, k - 1);
    }
  }

  /** Image `k` adds a pause after itself exactly when it was fetched and
      sent and is not the last. */
  lemma PausesStep(chatId: string, urls: seq<Json>, message: Json,
                   fetch: nat -> Result<()>, send: nat -> Result<()>, k: nat)
    requires k < |urls|
    ensures PausedAfter(BatchPrefix(chatId, urls, message, fetch, send, k + 1))
      == PausedAfter(BatchPrefix(chatId, urls, message, fetch, send, k))
         + if fetch(k).Ok? && send(k).Ok? && k < |urls| - 1 then {k} else {}
  {
    var prev := BatchPrefix(chatId, urls, message, fetch, send, k);
    var step := ImageStep(chatId, urls, message, fetch, send, k);
    EveryUrlAttemptedInOrder(chatId, urls, message, fetch, send, k);
    PausesAppend(prev, step, 0);
    ImageStepPauses(chatId, urls, message, fetch, send, k);
  }

  predicate PausesFollowSends(t: seq<Effect>) {
    forall p :: 0 <= p < |t| && t[p].Pause? ==> p > 0 && t[p - 1].SendMedia?
  }

  /** Every pause comes right after a send, so none follows a failed fetch,
      and the batch never ends on a pause. */
  lemma {:induction false} PausesOnlyBetweenSends(chatId: string, urls: seq<Json>, message: Json,
                                                  fetch: nat -> Result<()>, send: nat -> Result<()>,
                                                  k: nat)
    requires k <= |urls|
    ensures PausesFollowSends(BatchPrefix(chatId, urls, message, fetch, send, k))
    ensures k == |urls| > 0 ==> !Last(BatchPrefix(chatId, urls, message, fetch, send, k)).Pause?
  {
    if k > 0 {
      var prev := BatchPrefix(chatId, urls, message, fetch, send, k - 1);
      var step := ImageStep(chatId, urls, message, fetch, send, k - 1);
      PausesOnlyBetweenSends(chatId, urls, message, fetch, send, k - 1);
      var t := prev + step;
      forall p | 0 <= p < |t| && t[p].Pause? ensures p > 0 && t[p - 1].SendMedia? {
        if p >= |prev| {
          assert t[p] == step[p - |prev|];
          assert p - |prev| == 2 && step[1].SendMedia?;
          assert t[p - 1] == step[1];
        }
      }
    }
  }

  function Last(t: seq<Effect>): Effect
    requires t != []
  {
    t[|t| - 1]
  }

  /** Three images whose second send fails: all three are fetched and sent,
      the caption rides on the first, and the only pause is the one after
      the first image, so none precedes the third. */
  lemma SecondOfThreeFails(chatId: string, u0: string, u1: string, u2: string, message: string,
                            fetch: nat -> Result<()>, send: nat -> Result<()>)
    requires message != ""
    requires fetch(0).Ok? && fetch(1).Ok? && fetch(2).Ok?
    requires send(0).Ok? && send(1).Err? && send(2).Ok?
    ensures BatchPrefix(chatId, [Str(u0), Str(u1), Str(u2)], Str(message), fetch, send, 3)
      == [FetchMedia(Str(u0), Picture), SendMedia(chatId, Str(u0), Str(message)), Pause(PauseMs),
          FetchMedia(Str(u1), Picture), SendMedia(chatId, Str(u1), Str("")),
          FetchMedia(Str(u2), Picture), SendMedia(chatId, Str(u2), Str(""))]
  {
    var urls := [Str(u0), Str(u1), Str(u2)];
    assert BatchPrefix(chatId, urls, Str(message), fetch, send, 1)
      == [FetchMedia(Str(u0), Picture), SendMedia(chatId, Str(u0), Str(message)), Pause(PauseMs)];
    assert BatchPrefix(chatId, urls, Str(message), fetch, send, 2)
      == BatchPrefix(chatId, urls, Str(message), fetch, send, 1)
         + [FetchMedia(Str(u1), Picture), SendMedia(chatId, Str(u1), Str(""))];
  }

  /** One turn of the loop: the fetch, the send when the fetch succeeded, and
      the pause when the send succeeded and more images follow. */
  method SendImage(s: Session.Supervisor, chatId: string, urls: seq<Json>, message: Json,
                   fetch: nat -> Result<()>, send: nat -> Result<()>, i: nat)
    requires i < |urls|
    modifies s`trace
    ensures s.trace == old(s.trace) + ImageStep(chatId, urls, message, fetch, send, i)
  {
    s.trace := s.trace + [FetchMedia(urls[i], Picture)];
    if fetch(i).Err? {
      return;
    }
    s.trace := s.trace + [SendMedia(chatId, urls[i], Caption(message, i))];
    if send(i).Ok? && i < |urls| - 1 {
      s.trace := s.trace + [Pause(PauseMs)];
    }
  }

  /** The loop over the URLs; a failed image does not stop it. */
  method SendImages(s: Session.Supervisor, chatId: string, urls: seq<Json>, message: Json,
                    fetch: nat -> Result<()>, send: nat -> Result<()>)
    modifies s`trace
    ensures s.trace == old(s.trace) + BatchPrefix(chatId, urls, message, fetch, send, |urls|)
  {
    var i := 0;
    while i < |urls|
      invariant 0 <= i <= |urls|
      invariant s.trace == old(s.trace) + BatchPrefix(chatId, urls, message, fetch, send, i)
    {
      SendImage(s, chatId, urls, message, fetch, send, i);
      i := i + 1;
    }
  }
}
