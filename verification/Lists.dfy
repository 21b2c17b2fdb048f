/** Queues as sequences. */
module Lists {

  /** What is left when element `i` is taken out. */
  function Without<T>(s: seq<T>, i: nat): seq<T>
    requires i < |s|
  {
    s[..i] + s[i + 1..]
  }
}
