/**
 * The certificate lookup at the start of `initHttpsProxyServer`: the entries
 * of the `live/` directory (as `fs.readdirSync` lists them) decide which
 * certificate set the TLS server loads.
 */
module Certs {
  import opened Optional
  import opened Text
  import opened Layout

  datatype Selection =
    /** The listing is empty: the message is written and the process exits. */
    | NoCerts(message: string)
    /** The entry used, the warning written when there was a choice, and the two files read. */
    | Selected(entry: string, warning: Option<string>, certPath: string, keyPath: string)

  /**
   * An empty listing is fatal. Otherwise the first entry is used, with a
   * warning exactly when the listing has more than one, and the chain and the
   * key are read from that entry's directory.
   */
  function SelectCert(dirname: string, listing: seq<string>): (r: Selection)
    ensures r.NoCerts? <==> |listing| == 0
    ensures r.NoCerts? ==> r.message == "There are no certs in " + LiveDir(dirname)
    ensures r.Selected? ==>
              && r.entry == listing[0]
              && (r.warning.Some? <==> |listing| > 1)
              && r.certPath == FullchainPath(dirname, listing[0])
              && r.keyPath == PrivkeyPath(dirname, listing[0])
    ensures r.Selected? && r.warning.Some? ==>
              r.warning.value == "There are more than one cert in " + LiveDir(dirname) + ". Selecting " + listing[0] + "."
  {
    if |listing| == 0 then NoCerts("There are no certs in " + LiveDir(dirname))
    else
      var entry := listing[0];
      var warning :=
        if |listing| > 1
        then Some("There are more than one cert in " + LiveDir(dirname) + ". Selecting " + entry + ".")
        else None;
      Selected(entry, warning, FullchainPath(dirname, entry), PrivkeyPath(dirname, entry))
  }

  /**
   * The chain and the key come from the same directory, the selected entry's
   * directory under `live/`, and differ only in their file name.
   */
  lemma CertAndKeyShareDirectory(dirname: string, listing: seq<string>)
    requires |listing| > 0
    ensures var r := SelectCert(dirname, listing);
            && StartsWith(r.certPath, CertDir(dirname, listing[0]) + "/")
            && StartsWith(r.keyPath, CertDir(dirname, listing[0]) + "/")
            && r.certPath[|CertDir(dirname, listing[0]) + "/"|..] == "fullchain.pem"
            && r.keyPath[|CertDir(dirname, listing[0]) + "/"|..] == "privkey.pem"
  {
  }

  /** Only the first entry matters: entries after it change nothing but the warning. */
  lemma OnlyFirstEntryMatters(dirname: string, first: string, others1: seq<string>, others2: seq<string>)
    ensures var r1 := SelectCert(dirname, [first] + others1);
            var r2 := SelectCert(dirname, [first] + others2);
            && r1.Selected? && r2.Selected?
            && r1.entry == r2.entry == first
            && r1.certPath == r2.certPath
            && r1.keyPath == r2.keyPath
            && (|others1| == 0 <==> r1.warning.None?)
  {
  }
}
