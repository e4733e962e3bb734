/** The agent builder (builder.rs): a value holding the URL, network and
    account an agent will be made with, each replaced by its own `with_*`
    call, then turned into an agent by `build`. */
module Builder {
  import opened Wrappers
  import opened Lib
  import opened Snarkvm
  import opened Accounts
  import opened Agents

  datatype AgentBuilder = AgentBuilder(url: string, network: string, account: Account)

  /** `AgentBuilder::default()`, which `Agent::builder()` returns: the public
      explorer, the default network and the default account, which exists
      only when the account of seed 0 can be made. */
  function DefaultBuilder(k: KeyOps): (b: AgentBuilder)
    requires FromSeed(k, 0).Ok?
    ensures b.url == DEFAULT_BASE_URL && b.network == DEFAULT_TESTNET
    ensures FromSeed(k, 0) == Ok(b.account) && Derived(k, b.account)
  {
    AgentBuilder(DEFAULT_BASE_URL, DEFAULT_TESTNET, Accounts.Default(k))
  }

  /** `with_url`: the URL replaced, nothing else changed. */
  function WithUrl(b: AgentBuilder, url: string): (r: AgentBuilder)
    ensures r.url == url && r.network == b.network && r.account == b.account
  {
    b.(url := url)
  }

  /** `with_network`: the network replaced, nothing else changed. */
  function WithNetwork(b: AgentBuilder, network: string): (r: AgentBuilder)
    ensures r.network == network && r.url == b.url && r.account == b.account
  {
    b.(network := network)
  }

  /** `with_account`: the account replaced, nothing else changed. */
  function WithAccount(b: AgentBuilder, account: Account): (r: AgentBuilder)
    ensures r.account == account && r.url == b.url && r.network == b.network
  {
    b.(account := account)
  }

  /** The last call for a field wins. */
  lemma LastCallWins(b: AgentBuilder, u1: string, u2: string, n1: string, n2: string, a1: Account, a2: Account)
    ensures WithUrl(WithUrl(b, u1), u2) == WithUrl(b, u2)
    ensures WithNetwork(WithNetwork(b, n1), n2) == WithNetwork(b, n2)
    ensures WithAccount(WithAccount(b, a1), a2) == WithAccount(b, a2)
  {
  }

  /** Calls for different fields can be made in any order. */
  lemma CallsCommute(b: AgentBuilder, u: string, n: string, a: Account)
    ensures WithUrl(WithNetwork(b, n), u) == WithNetwork(WithUrl(b, u), n)
    ensures WithUrl(WithAccount(b, a), u) == WithAccount(WithUrl(b, u), a)
    ensures WithNetwork(WithAccount(b, a), n) == WithAccount(WithNetwork(b, n), a)
  {
  }

  /** Once all three fields are set, the builder started from does not matter. */
  lemma AllSetForgetsStart(b1: AgentBuilder, b2: AgentBuilder, u: string, n: string, a: Account)
    ensures WithAccount(WithNetwork(WithUrl(b1, u), n), a) == WithAccount(WithNetwork(WithUrl(b2, u), n), a)
    ensures WithAccount(WithNetwork(WithUrl(b1, u), n), a) == AgentBuilder(u, n, a)
  {
  }

  /** `build`: `Agent::new` with the builder's URL, network and account. */
  method Build(b: AgentBuilder) returns (agent: Agent)
    ensures fresh(agent)
    ensures agent.baseUrl == b.url && agent.network == b.network && agent.account == b.account
  {
    agent := new Agent(b.url, b.network, b.account);
  }
}
