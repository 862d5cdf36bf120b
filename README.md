# Newsfeed node helper — Dafny model

MagicMirror's newsfeed module has a server-side node helper,
`modules/default/newsfeed/node_helper.js`. It keeps one Fetcher per feed URL.
When the front end sends `ADD_FEED`, the helper resolves the feed's defaults.
It rejects a URL that is not a URI with `INCORRECT_URL`. Otherwise it creates a
Fetcher for a new URL, or reconfigures the existing one and has it re-broadcast
its items. In both cases it then starts the fetch. Each Fetcher gets two
callbacks. A successful read broadcasts every feed's items as one `NEWS_ITEMS`
object. A failed read sends `FETCH_ERROR` with the URL and the error.

The project has two modules:

- `NewsfeedSpec` (`newsfeed_spec.dfy`) is the value-level model. It holds:
  - the payload, the Fetcher record and the notification datatypes;
  - the JavaScript `||` defaulting;
  - one `createFetcher` call as a function `RequestFeed` on the registry state;
  - the aggregated `NEWS_ITEMS` object `Snapshot`;
  - lemmas over whole sequences of requests (`Run`).
- `NodeHelper` (`node_helper.dfy`) is the helper as a class. Its fetcher table
  `fetchers` is a map the methods update in place. `sent` is the log of the socket
  notifications the helper sends directly. Every method is proved against `NewsfeedSpec`.

Modelling choices:

- `validUrl.isUri` is an arbitrary `string -> bool` given to the constructor.
  Nothing is assumed about it, not even that `""` is rejected.
- JavaScript truthiness is restricted to the values that can occur here. An
  absent property is `None`. A number is a `nat`, and `0` is falsy. A string is
  falsy when it is `""`.
- `config.logFeedWarnings` is stored exactly as given, absent included.
- A Fetcher is a record. `setReloadInterval` overwrites its interval.
  `startFetch` and `broadcastItems` are only counted. A new Fetcher holds no
  items.
- The source keeps its fetchers in an array used as a dictionary
  (`this.fetchers = []`). The model uses a map. Array properties such as
  `length` could only clash with a key that `isUri` accepts, and a real URI
  cannot be such a name.
- The Fetcher's two callbacks are the methods `FetcherReceived` and
  `FetcherFailed`. The Fetcher calls them with its new items or its error.

## Model

| member | source | states |
|---|---|---|
| `NodeHelper.NewsfeedHelper.Start` | modules/default/newsfeed/node_helper.js:15-18 | `start` leaves an empty fetcher table and has sent nothing |
| `NodeHelper.NewsfeedHelper.SocketNotificationReceived` | modules/default/newsfeed/node_helper.js:21-25 | `ADD_FEED` performs exactly one `createFetcher` step with the payload's feed and config; any other notification changes neither the table nor the sent log |
| `NodeHelper.NewsfeedHelper.CreateFetcher` | modules/default/newsfeed/node_helper.js:34-71 | the new table and log are those of `RequestFeed`, and every fetcher stays stored under its own url |
| `NewsfeedSpec.ResolveReloadInterval` | modules/default/newsfeed/node_helper.js:39 | the interval is never 0. It is the feed's interval if truthy, else the config's if truthy, else 300000 ms |
| `NewsfeedSpec.Resolve` | modules/default/newsfeed/node_helper.js:37-39 | the url is the feed's url if truthy, else `""`. The encoding is the feed's encoding if truthy, else `"UTF-8"`, so it is never empty. The interval is as in `ResolveReloadInterval` |
| `NewsfeedSpec.RequestFeed` | modules/default/newsfeed/node_helper.js:41-70 | A non-URI appends exactly one `IncorrectUrl(url)` and leaves the table unchanged. For a URI, createFetcher itself sends nothing and adds at most that url as a key. A new url gets a fetcher with the resolved interval and encoding, the config's logFeedWarnings, no items and one startFetch. A known url keeps its url, encoding, logFeedWarnings and items, takes the new interval, and gets one more broadcastItems and one more startFetch. No other fetcher changes, and every fetcher stays stored under its own url |
| `NewsfeedSpec.Snapshot` | modules/default/newsfeed/node_helper.js:78-81 | the `NEWS_ITEMS` object has exactly the table's urls as keys, each mapped to that fetcher's current items |
| `NodeHelper.NewsfeedHelper.CollectFeeds` | modules/default/newsfeed/node_helper.js:78-81 | the `for…in` loop builds an object whose keys are exactly the table's urls and whose values are each fetcher's items |
| `NodeHelper.NewsfeedHelper.BroadcastFeeds` | modules/default/newsfeed/node_helper.js:77-83 | appends exactly one `NewsItems(Snapshot(fetchers))` and leaves the table unchanged |
| `NodeHelper.NewsfeedHelper.FetcherReceived` | modules/default/newsfeed/node_helper.js:51-53 | the receive callback is a `broadcastFeeds`: one `NEWS_ITEMS` is sent, in which the reporting url maps to its new items and every other url to its unchanged items |
| `NodeHelper.NewsfeedHelper.FetcherFailed` | modules/default/newsfeed/node_helper.js:55-60 | the error callback appends exactly one `FetchError(url, error)` carrying the fetcher's own url. The table is unchanged, so the fetcher keeps its items |
| `NewsfeedSpec.LatestIntervalWins` | modules/default/newsfeed/node_helper.js:47-67 | Any non-empty run of accepted requests for one url leaves exactly that key added. Nothing is sent. The fetcher's interval is the one resolved from the latest request. For a url that was new, the encoding and logFeedWarnings are those of the first request |
| `NewsfeedSpec.RejectedUrlNeverRegistered` | modules/default/newsfeed/node_helper.js:41-44 | a url that is not a URI never becomes a key, whatever the requests, and no key appears that was not requested |
| `NewsfeedSpec.RunFromStart` | modules/default/newsfeed/node_helper.js:34-71 | After `start` and any request sequence, the keys are exactly the urls accepted at least once, each stored under its own url. Each fetcher's startFetch count equals its accepted requests, and its broadcastItems count is one less. Its interval is the one resolved from the latest accepted request for its url, even with requests for other urls in between. The sent log is one `IncorrectUrl` per rejected request, in order |
| `NewsfeedSpec.RepeatedRequestIsStable` | modules/default/newsfeed/node_helper.js:63-70 | for an accepted url, repeating an identical request leaves the key set, the fetcher's interval and encoding, and the sent log unchanged; a rejected url is reported again with one more `IncorrectUrl`, and the key set is unchanged |

## Left out

- `fetcher.js` is not part of this model. That covers HTTP fetching, RSS parsing, the timers and the guard against overlapping fetches.
  - `startFetch` and `broadcastItems` are recorded as call counts only.
  - In the source, `broadcastItems` itself calls the receive callback when the fetcher has items. The model does not follow that call.
  - That a new Fetcher starts with no items is an assumption of the model.
- `validUrl.isUri` belongs to the valid-url package. It is a parameter of the model, not a URI grammar.
- `Logger.log` calls are left out, because they change no state.
- The socket transport behind `sendSocketNotification` is reduced to appending to `sent`.
- The `NodeHelper.create` framework and `this.name` are left out.
- Concurrency between fetchers and timer-driven scheduling are left out. The helper's own code runs each handler to completion.
- An `ADD_FEED` whose payload has no `feed` or no `config` is not modelled: the payload types always hold both. The source throws a TypeError there, at `feed.url` (line 37) or at `config.reloadInterval` / `config.logFeedWarnings` (lines 39 and 49).
- General JavaScript truthiness is left out. Intervals are naturals and encodings and urls are strings, so a negative, fractional or non-numeric interval is not modelled.
