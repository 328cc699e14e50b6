/** The request parameters the host passes to an engine's `request`, which fills them in. */
module Requests {
  import opened Wrappers

  /** The entries of the host's `params` dict that the engines read or write. */
  class RequestParams {
    var pageno: int                     // `params['pageno']`, 1-based
    var cookies: map<string, string>    // `params['cookies']`
    var headers: map<string, string>    // `params['headers']`
    var url: string                     // `params['url']`
    var httpMethod: string              // `params['method']`
    var data: Option<string>            // `params['data']`, the request body
  }
}
