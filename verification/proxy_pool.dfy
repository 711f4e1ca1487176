/** The static proxy pool the deployment ships with, and what selecting from it yields. */
module ProxyPool {
  import opened Wrappers
  import opened Proxy
  import opened Text

  /** The entries left active in the pool; the commented-out ones are not part of it. */
  const ProxyList: seq<string> := [
    "64.64.118.149:6732:ltfazxrm:y69z38mzjh2y",
    "167.160.180.203:6754:ltfazxrm:y69z38mzjh2y",
    "154.36.110.199:6853:ltfazxrm:y69z38mzjh2y"
  ]

  /** Four colon-free fields written out with `:` between them parse back to those fields. */
  lemma EntryText(entry: string, host: string, port: string, user: string, password: string)
    requires ':' !in host && ':' !in port && ':' !in user && ':' !in password
    requires entry == host + ":" + port + ":" + user + ":" + password
    ensures ParseEntry(entry) == Success(ProxyEndpoint(host, port, user, password))
  {
    var e := ProxyEndpoint(host, port, user, password);
    FormatFour(e);
    FormatThenParse(e);
  }

  // The facts about the configured entries are stated one entry at a time, with
  // each literal reaching the lemma through a parameter fixed by its `requires`.
  // A lemma that mentions a string literal directly makes the verifier unfold
  // `Split` and `Count` character by character over it; keeping the literal
  // behind a variable lets the general `EntryText` do the work instead.

  /** The first configured entry is its four fields written out with `:` between them. */
  lemma Entry0Written(entry: string, host: string, port: string, user: string, password: string)
    requires entry == ProxyList[0]
    requires host == "64.64.118.149" && port == "6732" && user == "ltfazxrm" && password == "y69z38mzjh2y"
    ensures entry == host + ":" + port + ":" + user + ":" + password
  {
  }

  /** The first configured entry unpacks into its four fields. */
  lemma Entry0Parses(entry: string)
    requires entry == ProxyList[0]
    ensures ParseEntry(entry) == Success(ProxyEndpoint("64.64.118.149", "6732", "ltfazxrm", "y69z38mzjh2y"))
  {
    Entry0Written(entry, "64.64.118.149", "6732", "ltfazxrm", "y69z38mzjh2y");
    EntryText(entry, "64.64.118.149", "6732", "ltfazxrm", "y69z38mzjh2y");
  }

  /** The first configured entry has exactly the three `:` of a four-field entry. */
  lemma Entry0FourFields(entry: string)
    requires entry == ProxyList[0]
    ensures Count(entry, ':') == 3
  {
    Entry0Parses(entry);
  }

  /** The second configured entry is its four fields written out with `:` between them. */
  lemma Entry1Written(entry: string, host: string, port: string, user: string, password: string)
    requires entry == ProxyList[1]
    requires host == "167.160.180.203" && port == "6754" && user == "ltfazxrm" && password == "y69z38mzjh2y"
    ensures entry == host + ":" + port + ":" + user + ":" + password
  {
  }

  /** The second configured entry unpacks into its four fields. */
  lemma Entry1Parses(entry: string)
    requires entry == ProxyList[1]
    ensures ParseEntry(entry) == Success(ProxyEndpoint("167.160.180.203", "6754", "ltfazxrm", "y69z38mzjh2y"))
  {
    Entry1Written(entry, "167.160.180.203", "6754", "ltfazxrm", "y69z38mzjh2y");
    EntryText(entry, "167.160.180.203", "6754", "ltfazxrm", "y69z38mzjh2y");
  }

  /** The second configured entry has exactly the three `:` of a four-field entry. */
  lemma Entry1FourFields(entry: string)
    requires entry == ProxyList[1]
    ensures Count(entry, ':') == 3
  {
    Entry1Parses(entry);
  }

  /** The third configured entry is its four fields written out with `:` between them. */
  lemma Entry2Written(entry: string, host: string, port: string, user: string, password: string)
    requires entry == ProxyList[2]
    requires host == "154.36.110.199" && port == "6853" && user == "ltfazxrm" && password == "y69z38mzjh2y"
    ensures entry == host + ":" + port + ":" + user + ":" + password
  {
  }

  /** The third configured entry unpacks into its four fields. */
  lemma Entry2Parses(entry: string)
    requires entry == ProxyList[2]
    ensures ParseEntry(entry) == Success(ProxyEndpoint("154.36.110.199", "6853", "ltfazxrm", "y69z38mzjh2y"))
  {
    Entry2Written(entry, "154.36.110.199", "6853", "ltfazxrm", "y69z38mzjh2y");
    EntryText(entry, "154.36.110.199", "6853", "ltfazxrm", "y69z38mzjh2y");
  }

  /** The third configured entry has exactly the three `:` of a four-field entry. */
  lemma Entry2FourFields(entry: string)
    requires entry == ProxyList[2]
    ensures Count(entry, ':') == 3
  {
    Entry2Parses(entry);
  }

  /** Each configured entry has exactly the three `:` of a four-field entry. */
  lemma EntryHasFourFields(pool: seq<string>, i: nat)
    requires pool == ProxyList && i < |pool|
    ensures Count(pool[i], ':') == 3
  {
    if i == 0 {
      Entry0FourFields(pool[0]);
    } else if i == 1 {
      Entry1FourFields(pool[1]);
    } else {
      Entry2FourFields(pool[2]);
    }
  }

  /** The configured pool is well formed, so selecting from it never fails. */
  lemma ConfiguredPoolWellFormed(pool: seq<string>)
    requires pool == ProxyList
    ensures WellFormedPool(pool)
  {
    forall i | 0 <= i < |pool| ensures Count(pool[i], ':') == 3 {
      EntryHasFourFields(pool, i);
    }
  }
}
