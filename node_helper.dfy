/**
  The newsfeed node helper of modules/default/newsfeed/node_helper.js as an
  object: its fetcher table is updated in place, and every socket
  notification it sends directly is appended to `sent`.  Each method is proved
  against the value-level model in NewsfeedSpec.
 */
module NodeHelper {
  import opened NewsfeedSpec

  class NewsfeedHelper {
    /** validUrl.isUri of the valid-url package, taken as given. */
    const IsUri: string -> bool

    /** this.fetchers: url -> Fetcher. */
    var fetchers: map<string, FetcherRec>

    /** Every notification the helper sends directly, oldest first. */
    var sent: seq<Notification>

    ghost predicate Valid()
      reads this
    {
      WellKeyed(fetchers)
    }

    function State(): Registry
      reads this
    {
      Registry(fetchers, sent)
    }

    /** `start`: an empty fetcher table. */
    constructor Start(isUri: string -> bool)
      ensures Valid()
      ensures IsUri == isUri
      ensures State() == Started
    {
      IsUri := isUri;
      fetchers := map[];
      sent := [];
    }

    /** Only ADD_FEED is acted upon; any other notification changes nothing. */
    method SocketNotificationReceived(notification: string, payload: Payload)
      requires Valid()
      modifies this
      ensures Valid()
      ensures notification == "ADD_FEED" ==>
                State() == RequestFeed(IsUri, old(State()), payload.feed, payload.config)
      ensures notification != "ADD_FEED" ==> fetchers == old(fetchers) && sent == old(sent)
    {
      if notification == "ADD_FEED" {
        CreateFetcher(payload.feed, payload.config);
      }
    }

    /** Creates a fetcher for a new url, or reconfigures the existing one, and starts it. */
    method CreateFetcher(feed: Feed, config: Config)
      requires Valid()
      modifies this
      ensures Valid()
      ensures State() == RequestFeed(IsUri, old(State()), feed, config)
    {
      var resolved := Resolve(feed, config);
      var url, reloadInterval := resolved.url, resolved.reloadInterval;

      if !IsUri(url) {
        sent := sent + [IncorrectUrl(url)];
        return;
      }

      var fetcher: FetcherRec;
      if url !in fetchers {
        fetcher := NewFetcher(resolved, config);                                     // new Fetcher(...)
        fetchers := fetchers[url := fetcher];
      } else {
        fetcher := fetchers[url];
        fetcher := fetcher.(reloadInterval := reloadInterval);                        // setReloadInterval
        fetcher := fetcher.(broadcastItemsCalls := fetcher.broadcastItemsCalls + 1);  // broadcastItems
      }

      fetcher := fetcher.(startFetchCalls := fetcher.startFetchCalls + 1);            // startFetch
      fetchers := fetchers[url := fetcher];
    }

    /** The `for (var f in this.fetchers)` loop of broadcastFeeds: each url with its fetcher's items. */
    method CollectFeeds() returns (feeds: map<string, seq<Item>>)
      ensures feeds.Keys == fetchers.Keys
      ensures forall f :: f in feeds ==> feeds[f] == fetchers[f].items
    {
      feeds := map[];
      var pending := fetchers.Keys;
      while pending != {}
        invariant pending <= fetchers.Keys
        invariant feeds.Keys == fetchers.Keys - pending
        invariant forall f :: f in feeds ==> feeds[f] == fetchers[f].items
        decreases pending
      {
        var f :| f in pending;
        feeds := feeds[f := fetchers[f].items];
        pending := pending - {f};
      }
    }

    /** Sends one NEWS_ITEMS holding every fetcher's current items; the table is not touched. */
    method BroadcastFeeds()
      modifies this`sent
      ensures fetchers == old(fetchers)
      ensures sent == old(sent) + [NewsItems(Snapshot(fetchers))]
    {
      var feeds := CollectFeeds();
      assert feeds == Snapshot(fetchers);
      sent := sent + [NewsItems(feeds)];
    }

    /**
      The fetcher under `url` now holds `items` and calls the receive
      callback registered for it, which broadcasts all feeds.
     */
    method FetcherReceived(url: string, items: seq<Item>)
      requires Valid() && url in fetchers
      modifies this
      ensures Valid()
      ensures fetchers == old(fetchers)[url := old(fetchers)[url].(items := items)]
      ensures sent == old(sent) + [NewsItems(Snapshot(fetchers))]
      ensures Snapshot(fetchers)[url] == items
      ensures forall f :: f in old(fetchers) && f != url ==> Snapshot(fetchers)[f] == old(fetchers)[f].items
    {
      fetchers := fetchers[url := fetchers[url].(items := items)];
      BroadcastFeeds();
    }

    /**
      The fetcher under `url` calls the error callback registered for it:
      one FETCH_ERROR naming the fetcher's own url and the error.
     */
    method FetcherFailed(url: string, error: FetchErr)
      requires Valid() && url in fetchers
      modifies this`sent
      ensures fetchers == old(fetchers)
      ensures sent == old(sent) + [FetchError(url, error)]
    {
      var fetcher := fetchers[url];
      sent := sent + [FetchError(fetcher.url, error)];
    }
  }
}
