/**
  The path rewrite of the development server's `/api` proxy entry:
  `path.replace(/^\/api/, '/webhook')`. The pattern is anchored at the start
  and has no global flag, so at most the leading `/api` is replaced, with no
  check that a path segment ends there.
 */
module ViteProxy {

  const ApiPrefix := "/api"
  const WebhookPrefix := "/webhook"

  function Rewrite(path: string): (r: string)
    ensures ApiPrefix <= path ==> WebhookPrefix <= r && r[|WebhookPrefix|..] == path[|ApiPrefix|..]
    ensures !(ApiPrefix <= path) ==> r == path
    ensures |r| == if ApiPrefix <= path then |path| + 4 else |path|
  {
    if ApiPrefix <= path then WebhookPrefix + path[|ApiPrefix|..] else path
  }

  /** Undoes the rewrite on a forwarded path. */
  function Restore(path: string): string {
    if WebhookPrefix <= path then ApiPrefix + path[|WebhookPrefix|..] else path
  }

  /** A rewritten path never starts with `/api`, so a second rewrite changes nothing. */
  lemma RewriteIdempotent(path: string)
    ensures Rewrite(Rewrite(path)) == Rewrite(path)
  {
    if ApiPrefix <= path {
      var r := Rewrite(path);
      assert r[1] == 'w';
    }
  }

  /** Paths that do not already start with `/webhook` are recovered from
      their rewrite. */
  lemma RewriteRoundTrip(path: string)
    requires !(WebhookPrefix <= path)
    ensures Restore(Rewrite(path)) == path
  {
    if ApiPrefix <= path {
      var r := Rewrite(path);
      assert r == WebhookPrefix + path[|ApiPrefix|..];
      assert r[|WebhookPrefix|..] == path[|ApiPrefix|..];
      assert ApiPrefix + path[|ApiPrefix|..] == path;
    }
  }

  /** The rewrite is not injective: `/api/x` and `/webhook/x` are forwarded
      to the same path. */
  lemma RewriteCollision(rest: string)
    ensures Rewrite(ApiPrefix + rest) == Rewrite(WebhookPrefix + rest)
  {
    var p := WebhookPrefix + rest;
    assert p[1] == 'w';
    assert (ApiPrefix + rest)[|ApiPrefix|..] == rest;
  }

  /** Two paths neither of which starts with `/webhook` are forwarded to the
      same path only when they are equal. */
  lemma RewriteInjectiveOffWebhook(p: string, q: string)
    requires !(WebhookPrefix <= p) && !(WebhookPrefix <= q)
    requires Rewrite(p) == Rewrite(q)
    ensures p == q
  {
    RewriteRoundTrip(p);
    RewriteRoundTrip(q);
  }

  /** The rewrite on the paths its comment and edge cases name. */
  lemma RewriteExamples()
    ensures Rewrite("/api/cv-upload") == "/webhook/cv-upload"
    ensures Rewrite("/api/api/x") == "/webhook/api/x"
    ensures Rewrite("/apix") == "/webhookx"
    ensures Rewrite("/v1/api") == "/v1/api"
    ensures Rewrite("/ap") == "/ap"
  {
    assert ApiPrefix <= "/api/cv-upload";
    assert ApiPrefix <= "/api/api/x";
    assert ApiPrefix <= "/apix";
    assert "/v1/api"[1] != ApiPrefix[1];
  }
}
