/** Small vocabulary shared by every component: optional values, results,
    the exceptions the clients raise, and the few Python string and list
    operations the orchestration code relies on. */
module Support {

  datatype Option<T> = None | Some(value: T) {
    /** `d.get(key, default)` when `this` is the looked-up field. */
    function GetOr(default: T): T {
      if Some? then value else default
    }
  }

  datatype Result<T, E> = Ok(value: T) | Err(error: E)

  /** An exception escaping a client call, by kind. */
  datatype Fault =
    | Raised(msg: string)            // a plain `Exception` / HTTP error with its message
    | Timeout                        // a bounded wait ran out of polls
    | JobFailed(error: Option<string>) // the remote job reported status "failed"
    | MissingKey(key: string)        // a `KeyError` on a response dictionary

  /** Outcome of one `GET /health` probe. */
  datatype HealthOutcome = Answered(code: int) | Unreachable

  /** What the demucs server's `POST /job` produced, as either client reads
      it; `jobId == None` is a missing key. */
  datatype PostResponse = PostRaised(msg: string) | PostReply(jobId: Option<string>)

  /** The `job_id` of that reply: a failed request raises, and a reply
      without `job_id` is a `KeyError`. */
  function PostedJobId(resp: PostResponse): (r: Result<string, Fault>)
    ensures r.Ok? <==> resp.PostReply? && resp.jobId.Some?
    ensures r.Ok? ==> r.value == resp.jobId.value
    ensures resp.PostRaised? ==> r == Err(Raised(resp.msg))
    ensures resp.PostReply? && resp.jobId.None? ==> r == Err(MissingKey("job_id"))
  {
    match resp
    case PostRaised(msg) => Err(Raised(msg))
    case PostReply(jobId) => if jobId.Some? then Ok(jobId.value) else Err(MissingKey("job_id"))
  }

  /** Python truthiness of an optional string field: present and non-empty. */
  predicate Truthy(s: Option<string>) {
    s.Some? && s.value != ""
  }

  /** Python's `s[:n]`, including negative `n` (counted from the end). */
  function SliceTo<T>(s: seq<T>, n: int): (r: seq<T>)
    ensures r <= s
    ensures 0 <= n ==> |r| == if n < |s| then n else |s|
    ensures n < 0 ==> |r| == if |s| + n > 0 then |s| + n else 0
  {
    if 0 <= n then (if n < |s| then s[..n] else s)
    else if |s| + n > 0 then s[..|s| + n] else []
  }

  /** Python's `s[start:]`, including negative `start` (counted from the end). */
  function SliceFrom<T>(s: seq<T>, start: int): (r: seq<T>)
    ensures |r| <= |s| && r == s[|s| - |r|..]
    ensures start < 0 ==> |r| == if -start < |s| then -start else |s|
    ensures 0 <= start ==> |r| == if start < |s| then |s| - start else 0
  {
    if start < 0 then (if -start < |s| then s[|s| + start..] else s)
    else if start < |s| then s[start..] else []
  }

  /** ASCII lower-casing of one character. */
  function LowerChar(c: char): char {
    if 'A' <= c <= 'Z' then (c as int + 32) as char else c
  }

  /** `s.lower()` on the ASCII range. */
  function Lower(s: string): (r: string)
    ensures |r| == |s|
    ensures forall i :: 0 <= i < |s| ==> r[i] == LowerChar(s[i])
  {
    seq(|s|, i requires 0 <= i < |s| => LowerChar(s[i]))
  }

  /** Python's `t in s` for strings, by scanning the start positions of `s`. */
  predicate Contains(s: string, t: string)
    decreases |s|
  {
    t <= s || (s != [] && Contains(s[1..], t))
  }

  /** `t` occurs in `s` starting at position `i`. */
  predicate OccursAt(s: string, t: string, i: int) {
    0 <= i && i + |t| <= |s| && s[i..i + |t|] == t
  }

  /** `Contains` is substring search: `t` occurs at some position of `s`. */
  lemma {:induction false} ContainsIsSubstring(s: string, t: string)
    ensures Contains(s, t) <==> exists i :: OccursAt(s, t, i)
    decreases |s|
  {
    if t <= s {
      assert OccursAt(s, t, 0);
    } else if s == [] {
    } else {
      ContainsIsSubstring(s[1..], t);
      if Contains(s[1..], t) {
        var i :| OccursAt(s[1..], t, i);
        assert s[i + 1..i + 1 + |t|] == s[1..][i..i + |t|];
        assert OccursAt(s, t, i + 1);
      } else {
        forall i | 0 < i && i + |t| <= |s|
          ensures !OccursAt(s, t, i)
        {
          assert s[i..i + |t|] == s[1..][i - 1..i - 1 + |t|];
          assert !OccursAt(s[1..], t, i - 1);
        }
        assert !OccursAt(s, t, 0);
      }
    }
  }

  function DigitChar(d: nat): char
    requires d < 10
  {
    "0123456789"[d]
  }

  /** `str(n)` for a natural number. */
  function NatToString(n: nat): (r: string)
    ensures r != []
    ensures forall i :: 0 <= i < |r| ==> '0' <= r[i] <= '9'
    decreases n
  {
    if n < 10 then [DigitChar(n)] else NatToString(n / 10) + [DigitChar(n % 10)]
  }

  /** `str(i)` for an integer. */
  function IntToString(i: int): string {
    if i < 0 then "-" + NatToString(-i) else NatToString(i)
  }

  /** `s.rstrip("/")`: the longest prefix of `s` that does not end in '/';
      everything removed was a '/'. */
  function RStripSlash(s: string): (r: string)
    ensures r <= s
    ensures r == [] || r[|r| - 1] != '/'
    ensures forall i :: |r| <= i < |s| ==> s[i] == '/'
  {
    if s != [] && s[|s| - 1] == '/' then RStripSlash(s[..|s| - 1]) else s
  }

  /** The index of the first element satisfying `p`, or `|s|` when none does. */
  function FirstIndex<T>(s: seq<T>, p: T -> bool): (k: nat)
    ensures k <= |s|
    ensures forall j :: 0 <= j < k ==> !p(s[j])
    ensures k < |s| ==> p(s[k])
  {
    if s == [] then 0 else if p(s[0]) then 0 else 1 + FirstIndex(s[1..], p)
  }

  /** The first index is determined by where the predicate first holds. */
  lemma FirstIndexAt<T>(s: seq<T>, p: T -> bool, k: nat)
    requires k <= |s|
    requires forall j :: 0 <= j < k ==> !p(s[j])
    requires k < |s| ==> p(s[k])
    ensures FirstIndex(s, p) == k
  {
  }
}
