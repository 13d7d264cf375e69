/**
 * The fund routes: the fund list (with a fixed default while nothing is
 * registered) and registration of a fund by its six-digit code.
 */
module EtfApi {
  import opened Wrappers
  import opened Text
  import opened Database
  import DataService

  // ---------------------------------------------------------------------
  // Listing

  /** One list entry; price and change are not looked up here. */
  datatype ListEntry = ListEntry(code: string, name: string, change: Option<real>, price: Option<real>)

  /** The list shown while no fund is registered. */
  const DefaultList := [ListEntry("510300", "沪深300ETF", None, None), ListEntry("512880", "证券ETF", None, None)]

  /** The list for the registered funds: one entry per fund, in order. */
  function EntriesOf(funds: seq<Fund>): (list: seq<ListEntry>)
    ensures |list| == |funds|
    ensures forall i :: 0 <= i < |funds| ==>
              list[i].code == funds[i].code && list[i].name == funds[i].name && list[i].change.None? && list[i].price.None?
  {
    seq(|funds|, i requires 0 <= i < |funds| => ListEntry(funds[i].code, funds[i].name, None, None))
  }

  /** `get_etf_list`: the default list when the registry is empty, else one entry per fund. */
  method GetEtfList(store: Store) returns (list: seq<ListEntry>)
    ensures store.funds == [] ==> list == DefaultList
    ensures store.funds != [] ==> list == EntriesOf(store.funds)
  {
    var funds := store.GetEtfList();
    if funds == [] {
      return DefaultList;
    }
    list := [];
    for i := 0 to |funds|
      invariant list == EntriesOf(funds[..i])
    {
      list := list + [ListEntry(funds[i].code, funds[i].name, None, None)];
    }
    assert funds[..|funds|] == funds;
  }

  // ---------------------------------------------------------------------
  // Registration

  /** Six characters, all decimal digits. */
  predicate IsValidCode(code: string)
  {
    AllDigits(code) && |code| == 6
  }

  /** How the bounded wait for the fund information ended. */
  datatype InfoWait = InfoTimedOut | InfoFailed | InfoReady(info: DataService.EtfInfo)

  /** `get_etf_info_async`: on a timeout or failure, the preset name with the default exchange and category. */
  function InfoAfterWait(code: string, w: InfoWait): (info: DataService.EtfInfo)
    ensures !w.InfoReady? ==> info == DataService.EtfInfo(code, DataService.PresetName(code), "沪深", "ETF")
    ensures w.InfoReady? ==> info == w.info
  {
    if w.InfoReady? then w.info else DataService.EtfInfo(code, DataService.PresetName(code), "沪深", "ETF")
  }

  /** The name stored for a new fund: the fetched name, else the preset name, else the code. */
  function NameToStore(code: string, w: InfoWait): (name: string)
    ensures name != "" || (code == "" && InfoAfterWait(code, w).name == "")
    ensures InfoAfterWait(code, w).name != "" ==> name == InfoAfterWait(code, w).name
    ensures InfoAfterWait(code, w).name == "" ==> name == DataService.PresetName(code)
  {
    var info := InfoAfterWait(code, w);
    if info.name != "" then info.name else DataService.PresetName(code)
  }

  datatype AddReply = Added(message: string) | ServerError(detail: string)

  const InvalidCodeDetail := "400: 请输入6位数字代码"
  const AlreadyRegistered := "ETF已存在"

  /** The outer exception handler: a unique-key violation reads as 'ETF已存在', anything else as a 500 with its text. */
  function HandlerReply(error: string): (r: AddReply)
    ensures r == Added(AlreadyRegistered) <==> Contains(error, "UNIQUE constraint")
    ensures r.ServerError? ==> r.detail == error
  {
    if Contains(error, "UNIQUE constraint") then Added(AlreadyRegistered) else ServerError(error)
  }

  /** The registry after an insert that succeeds only for a new code. */
  function Insert(funds: seq<Fund>, f: Fund): (r: seq<Fund>)
    ensures HasFund(funds, f.code) ==> r == funds
    ensures !HasFund(funds, f.code) ==> r == funds + [f]
  {
    if HasFund(funds, f.code) then funds else funds + [f]
  }

  /**
   * The registry and the reply after registering `code`. `racer` is a fund
   * another request registers while this one waits for the information.
   */
  function AddOutcome(funds: seq<Fund>, code: string, w: InfoWait, racer: Option<Fund>): (r: (seq<Fund>, AddReply))
    ensures !IsValidCode(code) ==> r == (funds, ServerError(InvalidCodeDetail))
    ensures IsValidCode(code) && HasFund(funds, code) ==> r == (funds, Added(AlreadyRegistered))
    ensures IsValidCode(code) && !HasFund(funds, code) && racer.None? ==>
              var info := InfoAfterWait(code, w);
              r.0 == funds + [Fund(code, NameToStore(code, w), info.exchange, info.category)]
              && r.1 == Added("成功添加ETF: " + NameToStore(code, w))
    ensures IsValidCode(code) && !HasFund(funds, code) && racer.Some? && racer.value.code == code ==>
              r == (Insert(funds, racer.value), Added(AlreadyRegistered))
  {
    if !IsValidCode(code) then
      NotContainsWithoutFirstChar(InvalidCodeDetail, "UNIQUE constraint");
      (funds, HandlerReply(InvalidCodeDetail))
    else if HasFund(funds, code) then (funds, Added(AlreadyRegistered))
    else
      var current := if racer.Some? then Insert(funds, racer.value) else funds;
      assert racer.Some? && racer.value.code == code ==> current[|funds|].code == code;
      var info := InfoAfterWait(code, w);
      var name := NameToStore(code, w);
      if HasFund(current, code) then (current, HandlerReply(FundCodeTaken))
      else (current + [Fund(code, name, info.exchange, info.category)], Added("成功添加ETF: " + name))
  }

  /**
   * `add_etf`: validate the code, answer 'ETF已存在' for a registered code,
   * otherwise register it under the fetched or preset name. The 400 for a
   * bad code is re-raised by the outer handler as a 500 carrying its text,
   * and an insert that fails on the unique code is answered as 'ETF已存在'.
   */
  method AddEtf(store: Store, code: string, w: InfoWait, racer: Option<Fund>) returns (reply: AddReply)
    requires store.Valid()
    modifies store
    ensures store.Valid()
    ensures (store.funds, reply) == AddOutcome(old(store.funds), code, w, racer)
    ensures store.prices == old(store.prices) && store.strategies == old(store.strategies)
    ensures store.cache == old(store.cache)
  {
    if !IsValidCode(code) {
      return HandlerReply(InvalidCodeDetail);
    }
    var existing := store.GetEtfList();
    var found := false;
    for i := 0 to |existing|
      invariant found <==> HasFund(existing[..i], code)
    {
      assert forall k :: 0 <= k < i ==> existing[..i + 1][k] == existing[..i][k];
      if existing[i].code == code {
        found := true;
      }
    }
    assert existing[..|existing|] == existing;
    if found {
      return Added(AlreadyRegistered);
    }
    // Another request may register a fund while this one awaits the information.
    if racer.Some? {
      var _ := store.AddEtf(racer.value.code, racer.value.name, racer.value.exchange, racer.value.category);
    }
    var info := InfoAfterWait(code, w);
    var name := NameToStore(code, w);
    var err := store.AddEtf(code, name, info.exchange, info.category);
    if err.Some? {
      reply := HandlerReply(err.value);
    } else {
      reply := Added("成功添加ETF: " + name);
    }
  }

  // ---------------------------------------------------------------------
  // Properties

  /** Registering a code twice leaves the registry as registering it once, whatever the second fetch returns. */
  lemma AddIdempotent(funds: seq<Fund>, code: string, w1: InfoWait, w2: InfoWait)
    ensures var once := AddOutcome(funds, code, w1, None).0;
            AddOutcome(once, code, w2, None).0 == once
    ensures IsValidCode(code) ==> AddOutcome(AddOutcome(funds, code, w1, None).0, code, w2, None).1 == Added(AlreadyRegistered)
  {
    var once := AddOutcome(funds, code, w1, None).0;
    if IsValidCode(code) && !HasFund(funds, code) {
      assert once[|funds|].code == code;
      assert HasFund(once, code);
    }
  }

  /** Registration keeps codes unique, whatever another request registers meanwhile. */
  lemma AddKeepsCodesUnique(funds: seq<Fund>, code: string, w: InfoWait, racer: Option<Fund>)
    requires forall i, j :: 0 <= i < j < |funds| ==> funds[i].code != funds[j].code
    ensures var after := AddOutcome(funds, code, w, racer).0;
            forall i, j :: 0 <= i < j < |after| ==> after[i].code != after[j].code
  {
  }

  /** Losing the race to another request registering the same code still answers 'ETF已存在' and keeps one fund for it. */
  lemma RaceAnswersRegistered(funds: seq<Fund>, code: string, w: InfoWait, other: Fund)
    requires IsValidCode(code) && !HasFund(funds, code) && other.code == code
    ensures AddOutcome(funds, code, w, Some(other)) == (funds + [other], Added(AlreadyRegistered))
  {
  }

  /** A registered code is listed, with the name it was stored under. */
  lemma AddedFundListed(funds: seq<Fund>, code: string, w: InfoWait)
    requires IsValidCode(code) && !HasFund(funds, code)
    ensures var list := EntriesOf(AddOutcome(funds, code, w, None).0);
            list[|list| - 1].code == code && list[|list| - 1].name == NameToStore(code, w)
  {
  }

  /** Which codes pass validation. */
  lemma CodeValidationExamples()
    ensures IsValidCode("510300")
    ensures !IsValidCode("51030") && !IsValidCode("5103000") && !IsValidCode("51030a") && !IsValidCode("")
  {
    assert "51030a"[5] == 'a';
  }

  /** Without a usable fetch, a preset fund is stored under its preset name and an unknown code under the code itself. */
  lemma FallbackNames()
    ensures NameToStore("512880", InfoTimedOut) == "证券ETF"
    ensures NameToStore("123456", InfoFailed) == "123456"
  {
    assert "123456" !in DataService.EtfNames;
  }
}
