/** The server-side loader of a DAO page: address validation, the chain
    queries it makes in order, how each failure is turned into a page, a
    redirect or an error page, the page title, the proposal page's extra
    props, and the chain of parent DAOs. Every chain query is an input: the
    value it returns or what it throws. */
module DaoStaticProps {
  import opened Cosmos

  /** A route parameter. */
  datatype ParamValue = Absent | Str(s: string) | Strs(list: seq<string>)

  datatype Redirect = Redirect(destination: string, permanent: bool)

  /** What a failed step throws: a `RedirectError`, an `Error` (which may be
      a proposal-module-adapter error), or some other value. */
  datatype Thrown =
    | RedirectThrown(redirect: Redirect)
    | ErrorThrown(message: string, adapterError: bool)
    | ValueThrown

  datatype Attempt<T> = Ok(value: T) | Threw(thrown: Thrown)

  datatype DaoConfig = DaoConfig(name: string, description: string, imageUrl: Option<string>)

  /** The fields of the DAO core's `dump_state` the loader reads. */
  datatype DumpState = DumpState(admin: Option<string>, config: DaoConfig, version: string, votingModule: string)

  /** The voting module's `info` response: `info.contract` may be a string,
      something else, or missing, or `info` itself may be missing. */
  datatype ContractField = StringContract(name: string) | NonStringContract | NoContract
  datatype InfoResponse = WithInfo(contract: ContractField) | NoInfo

  datatype ProposalModule = ProposalModule(address: string, prefix: string)

  /** A parent DAO's `dump_state`, as far as the loader reads it. */
  datatype ParentState = ParentState(admin: Option<string>, name: string, imageUrl: Option<string>)

  datatype ParentDao = ParentDao(coreAddress: string, name: string, imageUrl: Option<string>, parentDao: Option<ParentDao>)

  datatype CommonProposalInfo = CommonProposalInfo(title: string, description: string)

  /** The page-specific props returned by `getProps`. */
  datatype MakerProps = MakerProps(
    leadingTitle: Option<string>,
    followingTitle: Option<string>,
    overrideTitle: Option<string>,
    overrideDescription: Option<string>,
    overrideImageUrl: Option<string>,
    proposalInfo: Option<Option<CommonProposalInfo>>,
    url: Option<string>)

  const NoMakerProps := MakerProps(None, None, None, None, None, None, None)

  datatype SerializedInfo = SerializedInfo(
    coreAddress: string,
    coreVersion: string,
    votingModuleAddress: string,
    votingModuleContractName: string,
    proposalModules: seq<ProposalModule>,
    name: string,
    description: string,
    imageUrl: Option<string>,
    created: Option<string>,
    parentDao: Option<ParentDao>)

  /** The page's props. Without `info` the page renders as "DAO not found";
      with `error` it renders as a server error. */
  datatype PageProps = PageProps(
    title: string,
    description: string,
    url: Option<string>,
    accentColor: Option<string>,
    info: Option<SerializedInfo>,
    error: Option<Thrown>,
    proposalInfo: Option<Option<CommonProposalInfo>>)

  datatype StaticProps = NotFound | Redirected(redirect: Redirect) | Props(props: PageProps, revalidate: Option<nat>)

  function NotFoundPage(title: string): PageProps
  {
    PageProps(title, "", None, None, None, None, None)
  }

  // Strings and titles

  predicate OccursAt(s: string, sub: string, i: int)
  {
    0 <= i <= |s| - |sub| && s[i..i + |sub|] == sub
  }

  /** `s.includes(sub)`. */
  predicate Contains(s: string, sub: string)
  {
    exists i :: 0 <= i <= |s| - |sub| && OccursAt(s, sub, i)
  }

  /** The characters `String.prototype.trim` removes: white space and line
      terminators. */
  const WhiteSpace: set<char> := {
    '\U{0009}', '\U{000A}', '\U{000B}', '\U{000C}', '\U{000D}', '\U{0020}',
    '\U{00A0}', '\U{1680}', '\U{2000}', '\U{2001}', '\U{2002}', '\U{2003}',
    '\U{2004}', '\U{2005}', '\U{2006}', '\U{2007}', '\U{2008}', '\U{2009}',
    '\U{200A}', '\U{2028}', '\U{2029}', '\U{202F}', '\U{205F}', '\U{3000}',
    '\U{FEFF}'}

  predicate IsSpace(c: char)
  {
    c in WhiteSpace
  }

  function TrimStart(s: string): (r: string)
    ensures |r| <= |s| && r == s[|s| - |r|..]
    ensures forall i :: 0 <= i < |s| - |r| ==> IsSpace(s[i])
    ensures r != "" ==> !IsSpace(r[0])
  {
    if s != "" && IsSpace(s[0]) then
      var tail := s[1..];
      var r := TrimStart(tail);
      assert tail[|tail| - |r|..] == s[|s| - |r|..];
      forall i | 1 <= i < |s| - |r| ensures IsSpace(s[i]) {
        assert s[i] == tail[i - 1];
      }
      r
    else s
  }

  function TrimEnd(s: string): (r: string)
    ensures |r| <= |s| && r == s[..|r|]
    ensures forall i :: |r| <= i < |s| ==> IsSpace(s[i])
    ensures r != "" ==> !IsSpace(r[|r| - 1])
  {
    if s != "" && IsSpace(s[|s| - 1]) then
      var init := s[..|s| - 1];
      var r := TrimEnd(init);
      assert init[..|r|] == s[..|r|];
      forall i | |r| <= i < |s| - 1 ensures IsSpace(s[i]) {
        assert s[i] == init[i];
      }
      r
    else s
  }

  /** `s.trim()`: without the whitespace at either end. */
  function Trim(s: string): (r: string)
    ensures |r| <= |s|
    ensures r != "" ==> !IsSpace(r[0]) && !IsSpace(r[|r| - 1])
    ensures r == "" <==> forall k :: 0 <= k < |s| ==> IsSpace(s[k])
    ensures |r| <= |TrimStart(s)| && r == TrimStart(s)[..|r|]
  {
    var t := TrimStart(s);
    var r := TrimEnd(t);
    assert |r| <= |t| && r == t[..|r|];
    assert r == "" ==> t == "";
    assert r != "" ==> !IsSpace(s[|s| - |t|]) by {
      if r != "" { assert s[|s| - |t|] == t[0] == r[0]; }
    }
    r
  }

  /** Trimming keeps a contiguous part of the string and removes only
      whitespace around it: the leading whitespace goes first, leaving a
      suffix of the string, then the trailing whitespace of that suffix. */
  lemma TrimKeepsInfix(s: string)
    ensures TrimStart(s) == s[|s| - |TrimStart(s)|..]
    ensures forall k :: 0 <= k < |s| - |TrimStart(s)| ==> IsSpace(s[k])
    ensures Trim(s) == TrimStart(s)[..|Trim(s)|]
    ensures forall k :: |Trim(s)| <= k < |TrimStart(s)| ==> IsSpace(TrimStart(s)[k])
  {
    assert Trim(s) == TrimEnd(TrimStart(s));
  }

  /** Trimming twice changes nothing more. */
  lemma TrimIdempotent(s: string)
    ensures Trim(Trim(s)) == Trim(s)
  {
    var r := Trim(s);
    if r != "" {
      assert TrimStart(r) == r;
      assert TrimEnd(r) == r;
    }
  }

  /** `parts.join(sep)`. */
  function Join(parts: seq<string>, sep: string): (r: string)
    ensures parts != [] && parts[0] != "" ==> r != "" && r[0] == parts[0][0]
    ensures parts != [] && parts[|parts| - 1] != "" ==>
      r != "" && r[|r| - 1] == parts[|parts| - 1][|parts[|parts| - 1]| - 1]
  {
    if parts == [] then ""
    else if |parts| == 1 then parts[0]
    else parts[0] + sep + Join(parts[1..], sep)
  }

  /** `s?.trim()` followed by `.filter(Boolean)`: a missing or blank part
      disappears. */
  function TrimmedPart(s: Option<string>): seq<string>
  {
    if s.Some? && Trim(s.value) != "" then [Trim(s.value)] else []
  }

  /** The page title: the override when given, otherwise the non-blank
      trimmed leading title, DAO name and following title joined by " | ". */
  function Title(overrideTitle: Option<string>, leading: Option<string>, name: string, following: Option<string>): string
  {
    if overrideTitle.Some? then overrideTitle.value
    else ComposedTitle(leading, name, following)
  }

  /** The override wins; a composed title is blank exactly when every part
      is, and is the trimmed DAO name alone when the other two parts are
      missing or blank. */
  lemma TitleCases(overrideTitle: Option<string>, leading: Option<string>, name: string, following: Option<string>)
    ensures overrideTitle.Some? ==> Title(overrideTitle, leading, name, following) == overrideTitle.value
    ensures overrideTitle.None? ==>
      (Title(overrideTitle, leading, name, following) == "" <==>
         (leading.None? || Trim(leading.value) == "") && Trim(name) == ""
         && (following.None? || Trim(following.value) == ""))
    ensures (overrideTitle.None? && (leading.None? || Trim(leading.value) == "")
             && (following.None? || Trim(following.value) == "")) ==>
      Title(overrideTitle, leading, name, following) == Trim(name)
  {
    if overrideTitle.None? {
      assert Title(overrideTitle, leading, name, following) == ComposedTitle(leading, name, following);
      ComposedTitleBlank(leading, name, following);
      if (leading.None? || Trim(leading.value) == "") && (following.None? || Trim(following.value) == "") {
        ComposedTitleNameOnly(leading, name, following);
      }
    }
  }

  lemma ComposedTitleNameOnly(leading: Option<string>, name: string, following: Option<string>)
    requires leading.None? || Trim(leading.value) == ""
    requires following.None? || Trim(following.value) == ""
    ensures ComposedTitle(leading, name, following) == Trim(name)
  {
    var b := TrimmedPart(Some(name));
    assert TrimmedPart(leading) == [] && TrimmedPart(following) == [];
    assert TrimmedPart(leading) + b + TrimmedPart(following) == b;
    if Trim(name) == "" {
      assert b == [];
    } else {
      assert b == [Trim(name)];
      assert Join(b, " | ") == Trim(name);
    }
  }

  lemma ComposedTitleBlank(leading: Option<string>, name: string, following: Option<string>)
    ensures ComposedTitle(leading, name, following) == "" <==>
      (leading.None? || Trim(leading.value) == "") && Trim(name) == ""
      && (following.None? || Trim(following.value) == "")
  {
    var a, b, c := TrimmedPart(leading), TrimmedPart(Some(name)), TrimmedPart(following);
    var parts := a + b + c;
    if parts != [] {
      var first := if a != [] then a[0] else if b != [] then b[0] else c[0];
      assert parts[0] == first;
      assert first != "";
    }
  }

  /** The non-blank trimmed leading title, DAO name and following title
      joined by " | ". */
  function ComposedTitle(leading: Option<string>, name: string, following: Option<string>): string
  {
    Join(TrimmedPart(leading) + TrimmedPart(Some(name)) + TrimmedPart(following), " | ")
  }

  /** A non-empty string without whitespace at either end. */
  predicate IsTrimmedWord(w: string)
  {
    w != "" && !IsSpace(w[0]) && !IsSpace(w[|w| - 1])
  }

  lemma TrimmedPartIsTrimmed(o: Option<string>)
    ensures forall i :: 0 <= i < |TrimmedPart(o)| ==> IsTrimmedWord(TrimmedPart(o)[i])
  {
    if o.Some? && Trim(o.value) != "" {
      var w := Trim(o.value);
      assert IsTrimmedWord(w);
      assert TrimmedPart(o) == [w];
    }
  }

  lemma JoinOfTrimmedWords(parts: seq<string>, sep: string)
    requires forall i :: 0 <= i < |parts| ==> IsTrimmedWord(parts[i])
    ensures var t := Join(parts, sep); t == "" || (!IsSpace(t[0]) && !IsSpace(t[|t| - 1]))
  {
    if parts != [] {
      assert IsTrimmedWord(parts[0]) && IsTrimmedWord(parts[|parts| - 1]);
    }
  }

  /** A composed title is never padded with whitespace. */
  lemma ComposedTitleIsTrimmed(leading: Option<string>, name: string, following: Option<string>)
    ensures var t := ComposedTitle(leading, name, following);
      t == "" || (!IsSpace(t[0]) && !IsSpace(t[|t| - 1]))
  {
    var a, b, c := TrimmedPart(leading), TrimmedPart(Some(name)), TrimmedPart(following);
    TrimmedPartIsTrimmed(leading);
    TrimmedPartIsTrimmed(Some(name));
    TrimmedPartIsTrimmed(following);
    var parts := a + b + c;
    forall i | 0 <= i < |parts| ensures IsTrimmedWord(parts[i]) {
      if i < |a| {
        assert parts[i] == a[i];
      } else if i < |a| + |b| {
        assert parts[i] == b[i - |a|];
      } else {
        assert parts[i] == c[i - |a| - |b|];
      }
    }
    JoinOfTrimmedWords(parts, " | ");
  }

  /** Three parts joined: each separated from the next by `sep`. */
  lemma JoinThree(a: string, b: string, c: string, sep: string)
    ensures Join([a, b, c], sep) == a + sep + b + sep + c
  {
    assert [a, b, c][1..] == [b, c];
    assert [b, c][1..] == [c];
    calc {
      Join([a, b, c], sep);
      a + sep + Join([b, c], sep);
      a + sep + (b + sep + c);
      a + sep + b + sep + c;
    }
  }

  /** With every part present and not blank, the title is the three trimmed
      parts in order. */
  lemma FullTitle(leading: string, name: string, following: string)
    requires Trim(leading) != "" && Trim(name) != "" && Trim(following) != ""
    ensures ComposedTitle(Some(leading), name, Some(following)) == Trim(leading) + " | " + Trim(name) + " | " + Trim(following)
  {
    var l, n, f := Trim(leading), Trim(name), Trim(following);
    var a, b, c := TrimmedPart(Some(leading)), TrimmedPart(Some(name)), TrimmedPart(Some(following));
    assert a == [l] && b == [n] && c == [f];
    assert a + b + c == [l, n, f];
    assert ComposedTitle(Some(leading), name, Some(following)) == Join([l, n, f], " | ");
    JoinThree(l, n, f, " | ");
  }

  // Error classification

  const LegacyDaoMessage := "Query failed with (18): Error parsing into type cw3_dao::msg::QueryMsg: unknown variant `config`"

  predicate IsNotFoundMessage(message: string)
  {
    Contains(message, "contract: not found")
    || Contains(message, "Error parsing into type cw_core::msg::QueryMsg")
    || Contains(message, "decoding bech32 failed")
  }

  /** The loader's `catch`: a redirect is followed; a legacy DAO is sent,
      non-permanently, to the legacy site; a DAO that does not exist gets
      the not-found page; anything else the server-error page. Both pages
      are regenerated after a second. */
  function ClassifyError(t: Thrown, coreAddress: string, legacyPrefix: string): (r: StaticProps)
    ensures r != NotFound
    ensures r.Redirected? <==> t.RedirectThrown? || (t.ErrorThrown? && Contains(t.message, LegacyDaoMessage))
    ensures t.RedirectThrown? ==> r == Redirected(t.redirect)
    ensures t.ErrorThrown? && Contains(t.message, LegacyDaoMessage) ==>
      r == Redirected(Redirect(legacyPrefix + "/dao/" + coreAddress, false))
    ensures r.Props? ==> r.revalidate == Some(1) && r.props.info.None? && r.props.description == ""
    ensures r.Props? && r.props.error.None? <==>
      t.ErrorThrown? && !Contains(t.message, LegacyDaoMessage) && IsNotFoundMessage(t.message)
    ensures r.Props? && r.props.error.None? ==> r.props.title == "DAO not found"
    ensures r.Props? && r.props.error.Some? ==> r.props.title == "title.500" && r.props.error == Some(t)
  {
    match t
    case RedirectThrown(redirect) => Redirected(redirect)
    case ErrorThrown(message, _) =>
      if Contains(message, LegacyDaoMessage) then
        Redirected(Redirect(legacyPrefix + "/dao/" + coreAddress, false))
      else if IsNotFoundMessage(message) then
        Props(NotFoundPage("DAO not found"), Some(1))
      else
        Props(NotFoundPage("title.500").(error := Some(t)), Some(1))
    case ValueThrown =>
      Props(NotFoundPage("title.500").(error := Some(t)), Some(1))
  }

  // Parent DAOs

  function Addresses(p: ParentDao): seq<string>
    decreases p
  {
    [p.coreAddress] + if p.parentDao.Some? then Addresses(p.parentDao.value) else []
  }

  predicate Distinct(s: seq<string>)
  {
    forall i, j :: 0 <= i < j < |s| ==> s[i] != s[j]
  }

  /** `!subDaoAdmin || subDaoAdmin === subDaoAddress`. */
  predicate NoParent(subDao: string, admin: Option<string>)
  {
    admin.None? || admin.value == "" || admin.value == subDao
  }

  /** `loadParentDaoInfo` as written, run for at most `fuel` levels (`None`
      while still recursing). `parents` holds the `dump_state` of every DAO
      that answers; a query that fails gives no parent. Nothing stops a
      cycle of admins longer than one. */
  function ParentChainAsWritten(fuel: nat, parents: map<string, ParentState>, subDao: string, admin: Option<string>)
    : Option<Option<ParentDao>>
  {
    if fuel == 0 then None
    else if NoParent(subDao, admin) then Some(None)
    else if admin.value !in parents then Some(None)
    else
      var state := parents[admin.value];
      match ParentChainAsWritten(fuel - 1, parents, admin.value, state.admin)
      case None => None
      case Some(grandparent) => Some(Some(ParentDao(admin.value, state.name, state.imageUrl, grandparent)))
  }

  const CycleParents := map["A" := ParentState(Some("B"), "DAO A", None), "B" := ParentState(Some("A"), "DAO B", None)]

  /** Two DAOs that are each other's admin: loading A's parents never
      finishes, however many levels are allowed. */
  lemma {:induction false} AdminCycleNeverFinishes(fuel: nat)
    ensures ParentChainAsWritten(fuel, CycleParents, "A", Some("B")).None?
    ensures ParentChainAsWritten(fuel, CycleParents, "B", Some("A")).None?
  {
    if fuel > 0 {
      AdminCycleNeverFinishes(fuel - 1);
      assert CycleParents["B"].admin == Some("A");
      assert CycleParents["A"].admin == Some("B");
    }
  }

  /** The parent chain with the DAOs already on it remembered in `visited`:
      an admin seen before ends the chain, so the recursion stops. */
  function ParentChain(parents: map<string, ParentState>, subDao: string, admin: Option<string>, visited: set<string>)
    : (r: Option<ParentDao>)
    requires subDao in visited
    ensures r.Some? <==> !NoParent(subDao, admin) && admin.value !in visited && admin.value in parents
    ensures r.Some? ==> r.value.coreAddress == admin.value
    ensures r.Some? ==>
      (Distinct(Addresses(r.value))
       && forall i :: 0 <= i < |Addresses(r.value)| ==>
            Addresses(r.value)[i] !in visited && Addresses(r.value)[i] in parents)
    decreases parents.Keys - visited
  {
    if NoParent(subDao, admin) || admin.value in visited || admin.value !in parents then None
    else
      var address := admin.value;
      var state := parents[address];
      var grandparent := ParentChain(parents, address, state.admin, visited + {address});
      var p := ParentDao(address, state.name, state.imageUrl, grandparent);
      assert Distinct(Addresses(p)) by {
        if grandparent.Some? {
          var rest := Addresses(grandparent.value);
          assert Addresses(p) == [address] + rest;
          forall j | 0 <= j < |rest| ensures rest[j] != address {
            assert rest[j] !in visited + {address};
          }
        }
      }
      Some(p)
  }

  /** Whenever the loader as written finishes with a chain that never comes
      back to a DAO already seen, the corrected loader gives the same
      chain. */
  lemma {:induction false} ParentChainAgrees(fuel: nat, parents: map<string, ParentState>, subDao: string,
                                             admin: Option<string>, visited: set<string>)
    requires subDao in visited
    requires ParentChainAsWritten(fuel, parents, subDao, admin).Some?
    requires var p := ParentChainAsWritten(fuel, parents, subDao, admin).value;
      p.Some? ==>
        (Distinct(Addresses(p.value))
         && forall i :: 0 <= i < |Addresses(p.value)| ==> Addresses(p.value)[i] !in visited)
    ensures ParentChain(parents, subDao, admin, visited) == ParentChainAsWritten(fuel, parents, subDao, admin).value
  {
    var p := ParentChainAsWritten(fuel, parents, subDao, admin).value;
    if !NoParent(subDao, admin) && admin.value in parents {
      var address := admin.value;
      var state := parents[address];
      var g := ParentChainAsWritten(fuel - 1, parents, address, state.admin).value;
      assert Addresses(p.value)[0] == address;
      if g.Some? {
        var rest := Addresses(g.value);
        assert Addresses(p.value) == [address] + rest;
        assert Distinct(rest) by {
          forall i, j | 0 <= i < j < |rest| ensures rest[i] != rest[j] {
            assert rest[i] == Addresses(p.value)[i + 1] && rest[j] == Addresses(p.value)[j + 1];
          }
        }
        forall i | 0 <= i < |rest| ensures rest[i] !in visited + {address} {
          assert rest[i] == Addresses(p.value)[i + 1];
        }
      }
      ParentChainAgrees(fuel - 1, parents, address, state.admin, visited + {address});
    }
  }

  // The loader

  /** `_coreAddress ?? context.params?.address`, kept only when it is a
      non-empty string the address validator accepts. */
  function CoreAddress(fixedAddress: Option<string>, param: ParamValue, validate: string -> bool): (a: Option<string>)
    ensures a.Some? ==> a.value != "" && validate(a.value)
    ensures fixedAddress.Some? ==> a == (if fixedAddress.value != "" && validate(fixedAddress.value) then fixedAddress else None)
    ensures fixedAddress.None? && !param.Str? ==> a.None?
    ensures fixedAddress.None? && param.Str? ==> a == (if param.s != "" && validate(param.s) then Some(param.s) else None)
  {
    var candidate := if fixedAddress.Some? then Str(fixedAddress.value) else param;
    if candidate.Str? && candidate.s != "" && validate(candidate.s) then Some(candidate.s) else None
  }

  /** The answers of the chain, in the order the loader asks. */
  datatype ChainAnswers = ChainAnswers(
    dump: Attempt<DumpState>,
    parseVersion: string -> Option<string>,
    info: Attempt<InfoResponse>,
    instantiateHeights: Attempt<seq<nat>>,
    block: nat -> Attempt<string>,
    proposalModules: Attempt<seq<ProposalModule>>,
    accentColor: string -> Attempt<string>,
    parents: map<string, ParentState>)

  /** `makeGetDaoStaticProps(...)(context)`. `getProps` is the page's own
      props (given the core address and proposal modules), `cacheSeconds`
      the regeneration period of a loaded page. */
  method LoadDaoPage(
    ci: bool,
    fixedAddress: Option<string>,
    addressParam: ParamValue,
    validate: string -> bool,
    q: ChainAnswers,
    getProps: Option<(string, seq<ProposalModule>) -> Attempt<Option<MakerProps>>>,
    cacheSeconds: nat,
    legacyPrefix: string) returns (r: StaticProps)
    ensures ci ==> r == NotFound
    ensures !ci && CoreAddress(fixedAddress, addressParam, validate).None? ==>
      r == Props(NotFoundPage("error.daoNotFound"), None)
    ensures !ci && CoreAddress(fixedAddress, addressParam, validate).Some? ==>
      var a := CoreAddress(fixedAddress, addressParam, validate).value;
      (q.dump.Threw? ==> r == ClassifyError(q.dump.thrown, a, legacyPrefix))
      && (q.dump.Ok? && q.parseVersion(q.dump.value.version).None? ==>
            r == ClassifyError(ErrorThrown("error.failedParsingCoreVersion", false), a, legacyPrefix))
      && (q.dump.Ok? && q.parseVersion(q.dump.value.version).Some? && q.instantiateHeights.Threw? ==>
            r == ClassifyError(q.instantiateHeights.thrown, a, legacyPrefix))
      && (q.dump.Ok? && q.parseVersion(q.dump.value.version).Some? && q.instantiateHeights.Ok?
          && q.proposalModules.Threw? ==>
            r == ClassifyError(q.proposalModules.thrown, a, legacyPrefix))
      && (q.dump.Ok? && q.parseVersion(q.dump.value.version).Some? && q.instantiateHeights.Ok?
          && q.proposalModules.Ok? && getProps.Some? && getProps.value(a, q.proposalModules.value).Threw? ==>
            r == ClassifyError(getProps.value(a, q.proposalModules.value).thrown, a, legacyPrefix))
    ensures (!ci && CoreAddress(fixedAddress, addressParam, validate).Some?
             && q.dump.Ok? && q.parseVersion(q.dump.value.version).Some? && q.instantiateHeights.Ok? && q.proposalModules.Ok?
             && (getProps.Some? ==>
                   getProps.value(CoreAddress(fixedAddress, addressParam, validate).value, q.proposalModules.value).Ok?)) ==>
      var a := CoreAddress(fixedAddress, addressParam, validate).value;
      var state := q.dump.value;
      var config := state.config;
      var made := if getProps.Some? then getProps.value(a, q.proposalModules.value).value else None;
      var m := if made.Some? then made.value else NoMakerProps;
      var heights := q.instantiateHeights.value;
      var imageUrl := if config.imageUrl.Some? && config.imageUrl.value != "" then config.imageUrl else None;
      r.Props? && r.revalidate == Some(cacheSeconds)
      && r.props.title == Title(m.overrideTitle, m.leadingTitle, config.name, m.followingTitle)
      && r.props.description == (if m.overrideDescription.Some? then m.overrideDescription.value else config.description)
      && r.props.url == m.url && r.props.error.None? && r.props.proposalInfo == m.proposalInfo
      && r.props.accentColor ==
           (if imageUrl.Some? && q.accentColor(imageUrl.value).Ok? then Some(q.accentColor(imageUrl.value).value) else None)
      && r.props.info == Some(SerializedInfo(
           a,
           q.parseVersion(state.version).value,
           state.votingModule,
           if q.info.Ok? && q.info.value.WithInfo? && q.info.value.contract.StringContract?
           then q.info.value.contract.name else "fallback",
           q.proposalModules.value,
           config.name,
           config.description,
           if m.overrideImageUrl.Some? then m.overrideImageUrl else config.imageUrl,
           if |heights| > 0 && q.block(heights[0]).Ok? then Some(q.block(heights[0]).value) else None,
           ParentChain(q.parents, a, state.admin, {a})))
  {
    if ci {
      return NotFound;
    }
    var address := CoreAddress(fixedAddress, addressParam, validate);
    if address.None? {
      return Props(NotFoundPage("error.daoNotFound"), None);
    }
    var coreAddress := address.value;

    if q.dump.Threw? {
      return ClassifyError(q.dump.thrown, coreAddress, legacyPrefix);
    }
    var state := q.dump.value;
    var coreVersion := q.parseVersion(state.version);
    if coreVersion.None? {
      return ClassifyError(ErrorThrown("error.failedParsingCoreVersion", false), coreAddress, legacyPrefix);
    }

    var votingModuleContractName := "fallback";
    if q.info.Ok? && q.info.value.WithInfo? && q.info.value.contract.StringContract? {
      votingModuleContractName := q.info.value.contract.name;
    }

    var created: Option<string> := None;
    if q.instantiateHeights.Threw? {
      return ClassifyError(q.instantiateHeights.thrown, coreAddress, legacyPrefix);
    }
    var heights := q.instantiateHeights.value;
    if |heights| > 0 {
      var block := q.block(heights[0]);
      if block.Ok? {
        created := Some(block.value);
      }
    }

    if q.proposalModules.Threw? {
      return ClassifyError(q.proposalModules.thrown, coreAddress, legacyPrefix);
    }
    var proposalModules := q.proposalModules.value;

    var m := NoMakerProps;
    if getProps.Some? {
      var made := getProps.value(coreAddress, proposalModules);
      if made.Threw? {
        return ClassifyError(made.thrown, coreAddress, legacyPrefix);
      }
      if made.value.Some? {
        m := made.value.value;
      }
    }

    var config := state.config;
    var accentColor: Option<string> := None;
    if config.imageUrl.Some? && config.imageUrl.value != "" {
      var color := q.accentColor(config.imageUrl.value);
      if color.Ok? {
        accentColor := Some(color.value);
      }
    }

    var info := SerializedInfo(
      coreAddress,
      coreVersion.value,
      state.votingModule,
      votingModuleContractName,
      proposalModules,
      config.name,
      config.description,
      if m.overrideImageUrl.Some? then m.overrideImageUrl else config.imageUrl,
      created,
      ParentChain(q.parents, coreAddress, state.admin, {coreAddress}));
    var props := PageProps(
      Title(m.overrideTitle, m.leadingTitle, config.name, m.followingTitle),
      if m.overrideDescription.Some? then m.overrideDescription.value else config.description,
      m.url,
      accentColor,
      Some(info),
      None,
      m.proposalInfo);
    r := Props(props, Some(cacheSeconds));
  }

  // The proposal page

  /** `s.slice(0, n)`. */
  function Truncate(s: string, n: nat): (r: string)
    ensures |r| <= n && |r| <= |s| && r == s[..|r|]
    ensures |s| <= n ==> r == s
    ensures |s| > n ==> |r| == n
  {
    if |s| <= n then s else s[..n]
  }

  /** Neither a redirect nor an error of the proposal module adapter. */
  predicate Unexpected(t: Thrown)
  {
    !t.RedirectThrown? && !(t.ErrorThrown? && t.adapterError)
  }

  /** The `catch` around loading a proposal: a redirect is thrown on, an
      adapter error means no proposal, anything else becomes an unexpected
      error. */
  function CatchProposalError(t: Thrown): (r: Attempt<Option<CommonProposalInfo>>)
    ensures r.Ok? <==> t.ErrorThrown? && t.adapterError
    ensures r.Ok? ==> r.value.None?
    ensures t.RedirectThrown? ==> r == Threw(t)
    ensures Unexpected(t) ==> r == Threw(ErrorThrown("error.unexpectedError", false))
  {
    if t.RedirectThrown? then Threw(t)
    else if t.ErrorThrown? && t.adapterError then Ok(None)
    else Threw(ErrorThrown("error.unexpectedError", false))
  }

  /** The proposal page's `getProps`. `adapterPrefix` is the matched proposal
      module's prefix (or what matching threw), `isNumeric` tells whether
      `Number(proposalId)` is a number, and `proposalInfo` is what loading
      the proposal gives (none when it does not exist). */
  function ProposalPageProps(
    proposalId: ParamValue,
    urlPrefix: string,
    adapterPrefix: Attempt<string>,
    isNumeric: string -> bool,
    proposalInfo: Attempt<Option<CommonProposalInfo>>,
    removeMarkdown: string -> string,
    maxDescriptionChars: nat): (r: Attempt<Option<MakerProps>>)
    ensures !proposalId.Str? ==>
      r == Ok(Some(NoMakerProps.(followingTitle := Some("error.proposalNotFound"), proposalInfo := Some(None))))
    ensures proposalId.Str? && adapterPrefix.Ok? && isNumeric(proposalId.s) ==>
      r == Threw(RedirectThrown(Redirect(urlPrefix + adapterPrefix.value + proposalId.s, true)))
    ensures r.Threw? ==>
      r.thrown.RedirectThrown? || r.thrown == ErrorThrown("error.unexpectedError", false)
    ensures proposalId.Str? && adapterPrefix.Threw? ==>
      r == (if adapterPrefix.thrown.RedirectThrown? then Threw(adapterPrefix.thrown)
            else if Unexpected(adapterPrefix.thrown) then Threw(ErrorThrown("error.unexpectedError", false))
            else Ok(Some(NoMakerProps.(
              url := Some(urlPrefix + proposalId.s),
              followingTitle := Some("error.proposalNotFound"),
              overrideDescription := Some(Truncate(removeMarkdown(""), maxDescriptionChars)),
              proposalInfo := Some(None)))))
    ensures proposalId.Str? && adapterPrefix.Ok? && !isNumeric(proposalId.s) && proposalInfo.Ok? ==>
      r.Ok? && r.value.Some? && r.value.value.proposalInfo == Some(proposalInfo.value)
    ensures proposalId.Str? && adapterPrefix.Ok? && !isNumeric(proposalId.s) && proposalInfo.Threw? ==>
      (r.Threw? <==> !(proposalInfo.thrown.ErrorThrown? && proposalInfo.thrown.adapterError))
      && (proposalInfo.thrown.RedirectThrown? ==> r == Threw(proposalInfo.thrown))
      && (Unexpected(proposalInfo.thrown) ==> r == Threw(ErrorThrown("error.unexpectedError", false)))
    ensures proposalId.Str? && r.Ok? ==>
      r.value.Some? &&
      var m := r.value.value;
      m.url == Some(urlPrefix + proposalId.s)
      && m.proposalInfo.Some?
      && m.followingTitle ==
           Some(if m.proposalInfo.value.Some? then m.proposalInfo.value.value.title else "error.proposalNotFound")
      && m.overrideDescription.Some? && |m.overrideDescription.value| <= maxDescriptionChars
      && m.overrideDescription.value ==
           Truncate(removeMarkdown(if m.proposalInfo.value.Some? then m.proposalInfo.value.value.description else ""),
                    maxDescriptionChars)
  {
    if !proposalId.Str? then
      Ok(Some(NoMakerProps.(followingTitle := Some("error.proposalNotFound"), proposalInfo := Some(None))))
    else
      var id := proposalId.s;
      var loaded :=
        match adapterPrefix
        case Threw(t) => CatchProposalError(t)
        case Ok(prefix) =>
          if isNumeric(id) then Threw(RedirectThrown(Redirect(urlPrefix + prefix + id, true)))
          else if proposalInfo.Threw? then CatchProposalError(proposalInfo.thrown)
          else proposalInfo;
      match loaded
      case Threw(t) => Threw(t)
      case Ok(info) =>
        Ok(Some(NoMakerProps.(
          url := Some(urlPrefix + id),
          followingTitle := Some(if info.Some? then info.value.title else "error.proposalNotFound"),
          overrideDescription := Some(Truncate(removeMarkdown(if info.Some? then info.value.description else ""),
                                               maxDescriptionChars)),
          proposalInfo := Some(info))))
  }

  /** A proposal that does not exist, or whose module reports an adapter
      error, still gets a page: titled "proposal not found" and without
      proposal info. */
  lemma MissingProposalStillRenders(
    id: string, urlPrefix: string, adapterPrefix: Attempt<string>, isNumeric: string -> bool,
    proposalInfo: Attempt<Option<CommonProposalInfo>>, removeMarkdown: string -> string, maxDescriptionChars: nat)
    requires adapterPrefix.Ok? ==> !isNumeric(id)
    requires (adapterPrefix.Threw? && adapterPrefix.thrown.ErrorThrown? && adapterPrefix.thrown.adapterError)
      || (adapterPrefix.Ok? && (proposalInfo == Ok(None)
            || (proposalInfo.Threw? && proposalInfo.thrown.ErrorThrown? && proposalInfo.thrown.adapterError)))
    ensures var r := ProposalPageProps(Str(id), urlPrefix, adapterPrefix, isNumeric, proposalInfo, removeMarkdown, maxDescriptionChars);
      r.Ok? && r.value.Some? && r.value.value.proposalInfo == Some(None)
      && r.value.value.followingTitle == Some("error.proposalNotFound")
      && r.value.value.overrideDescription == Some(Truncate(removeMarkdown(""), maxDescriptionChars))
  {
  }
}
