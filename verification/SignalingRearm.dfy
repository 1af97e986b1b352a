/** Re-arm safety: once the browser has ended a viewer's session, nothing that
    viewer still does can harm the browser's next one.  Coarse model. */
module SignalingRearm {
  import opened Options
  import opened Signaling
  import opened SignalingHistory
  import opened SignalingBuffers

  /** A session that is over for connection c stays over until c negotiates
      again, whatever anybody does. */
  lemma EndedPersists(h: History, e: Event, c: Conn)
    requires Ended(h, c) && !(e.Sends? && e.c == c && IsSdp(e.frame.kind))
    ensures Ended(Then(h, e), c)
  {
  }

  /** After a bye reached c and until c sends an offer or answer, no step by c,
      its own bye and its disconnect included, changes the counterpart's
      buffers, forwards it a bye or touches its flags. */
  lemma EndedPeerIsHarmless(maxAge: nat, h: History, e: Event, b: Conn)
    requires Legal(maxAge, Then(h, e)) && !e.Joins?
    requires Ended(h, e.c) && !(e.Sends? && IsSdp(e.frame.kind))
    requires Holder(h, e.c.role.Other()) == Some(b)
    ensures var s, s' := Run(maxAge, h), Run(maxAge, Then(h, e));
            && BufferOf(s', b.role) == BufferOf(s, b.role)
            && SameFlags(PeerOf(s', b), PeerOf(s, b))
            && (PeerOf(s', b) == PeerOf(s, b)
                || (e.Sends? && e.frame.kind != Bye && PeerOf(s', b) == Accept(PeerOf(s, b), e.frame)))
  {
    var s, r := Run(maxAge, h), e.c.role.Other();
    HoldersAreHistory(maxAge, h);
    FlagsAreHistory(maxAge, h, e.c);
    assert Holder(h, r).Some? <==> r in s.slots;
    StepBuffer(s, e, r);
    match e
    case Sends(c, f, at) =>
      if ValidKind(f.kind) && f.kind != Bye {
        assert Receive(s, c, f, at) == Forward(s, r, f, at);
        ForwardPeer(s, r, f, at, b);
      }
    case Leaves(c, down, at) =>
    case Drains(c, at) =>
  }

  /** The steps the ended viewer c and the waiting browser may take without
      the browser itself withdrawing its offer; a join may be turned away. */
  predicate Quiet(h: History, e: Event, c: Conn) {
    match e
    case Joins(d, _, _) => Holder(h, d.role).Some?
    case Sends(d, f, _) => if d == c then !IsSdp(f.kind) else d.role != c.role && f.kind != Bye && f.kind != Offer
    case Leaves(d, _, _) => d == c
    case Drains(_, _) => true
  }

  ghost predicate AllQuiet(h: History, es: seq<Event>, c: Conn) {
    es == [] || (AllQuiet(h, es[..|es| - 1], c) && Quiet(Extend(h, es[..|es| - 1]), es[|es| - 1], c))
  }

  lemma {:induction false} OfferStaysLive(h: History, es: seq<Event>, c: Conn, offer: Stamped)
    requires Ended(h, c) && Latest(Live(h, c.role.Other()), Offer) == Some(offer)
    requires AllQuiet(h, es, c)
    ensures Ended(Extend(h, es), c)
    ensures Latest(Live(Extend(h, es), c.role.Other()), Offer) == Some(offer)
  {
    if es != [] {
      var e, past := es[|es| - 1], Extend(h, es[..|es| - 1]);
      OfferStaysLive(h, es[..|es| - 1], c, offer);
      EndedPersists(past, e, c);
      if e.Sends? {
        LatestOfSnoc(Live(past, c.role.Other()), Stamped(e.frame, e.at), Offer);
      }
    }
  }

  lemma LegalPrefix(maxAge: nat, h: History, e: Event)
    requires Legal(maxAge, Then(h, e)) && Monotone(Then(h, e))
    ensures Legal(maxAge, h) && Monotone(h)
  {
  }

  lemma LiveOfferComesFirst(maxAge: nat, h: History, offer: Frame, sent: int, viewer: Conn, first: Frame, at: int)
    requires viewer.role == Client && Latest(Live(h, Browser), Offer) == Some(Stamped(offer, sent)) && at - sent <= maxAge
    requires Legal(maxAge, Then(h, Joins(viewer, first, at))) && Monotone(Then(h, Joins(viewer, first, at)))
    requires Holder(h, Client).None?
    ensures var inbox := PeerOf(Run(maxAge, Then(h, Joins(viewer, first, at))), viewer).Inbox();
            |inbox| > 0 && inbox[0] == offer
  {
    LegalPrefix(maxAge, h, Joins(viewer, first, at));
    LatestFrom(Live(h, Browser), Offer);
    LiveFramesAreTheHolders(maxAge, h, Browser);
    JoinerInbox(maxAge, h, viewer, first, at);
    assert SdpOwed(h, Browser, at, maxAge)[0] == offer;
  }

  /** The next viewer gets the re-armed browser's offer.  The browser's bye has
      reached viewer c; the browser b offers again; c then does whatever it
      likes short of negotiating, b does not withdraw; when the next viewer
      joins while the offer is fresh, the offer is the first thing it is
      sent. */
  lemma NextViewerGetsOffer(maxAge: nat, h: History, b: Conn, c: Conn, offer: Frame, sent: int,
                            es: seq<Event>, viewer: Conn, first: Frame, at: int)
    requires c.role == viewer.role == Client && b.role == Browser && offer.kind == Offer
    requires Ended(h, c)
    requires var h' := Then(Extend(Then(h, Sends(b, offer, sent)), es), Joins(viewer, first, at));
             Legal(maxAge, h') && Monotone(h')
    requires AllQuiet(Then(h, Sends(b, offer, sent)), es, c)
    requires Holder(Extend(Then(h, Sends(b, offer, sent)), es), Client).None?
    requires at - sent <= maxAge
    ensures var h' := Then(Extend(Then(h, Sends(b, offer, sent)), es), Joins(viewer, first, at));
            var inbox := PeerOf(Run(maxAge, h'), viewer).Inbox();
            |inbox| > 0 && inbox[0] == offer
  {
    var h1 := Then(h, Sends(b, offer, sent));
    var h2 := Extend(h1, es);
    EndedPersists(h, Sends(b, offer, sent), c);
    LatestOfSnoc(Live(h, Browser), Stamped(offer, sent), Offer);
    OfferStaysLive(h1, es, c, Stamped(offer, sent));
    LiveOfferComesFirst(maxAge, h2, offer, sent, viewer, first, at);
  }
}
