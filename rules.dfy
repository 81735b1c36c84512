/** The rule library of the rapport engine (lib/rapport/rules.ts): the rule
    record, the constant table of 40 rules (15 positive trainee patterns and
    25 negative customer patterns) and the filter queries over it. */
module Rules {

  import opened Wrappers
  import opened Sequences

  /** Training context of a session. */
  datatype Scenario = PhoneInvite | ProductMarketing | ObjectionHandling

  /** Baseline disposition of the simulated customer. */
  datatype CustomerType = Neutral | Avoidant | Skeptical | HasInsurance

  /** Satir's five communication stances. */
  datatype SatirPosture = Placating | Blaming | SuperReasonable | Irrelevant | Congruent

  /** `negative`: a customer's resistance pattern; `positive`: a trainee's
      trust-building pattern. */
  datatype RuleType = Negative | Positive

  /** One `RapportRule`. The scenario field, a single value or an array in
      the source, is the set of scenarios the rule applies to. An absent
      `sentencePatterns` is the empty sequence. `weightTenths` is ten times
      the source's decimal `weight` (every weight there has one decimal). */
  datatype Rule = Rule(
    id: string,
    ruleType: RuleType,
    scenario: set<Scenario>,
    customerType: Option<CustomerType>,
    satirPosture: SatirPosture,
    keywords: seq<string>,
    sentencePatterns: seq<string>,
    intentClassification: string,
    psychologyExplanation: string,
    rapportStrategy: string,
    responseGuide: string,
    rapportImpactScore: int,
    weightTenths: nat)
  {
    /** `rapportImpactScore * weight`, in tenths. */
    function WeightedImpactTenths(): int {
      rapportImpactScore * weightTenths
    }
  }

  // =====================================================================
  // The rule table

  // rules.ts:37
  const PositiveEmpathy: Rule := Rule(
    "positive_empathy_expression", Positive, {ProductMarketing, ObjectionHandling}, None, Congruent,
    ["我理解", "我明白", "我了解", "我知道", "我感覺得到", "我能體會"],
    ["同理心詞彙", "對客戶感受的確認"],
    "同理心表達 (Empathy Expression)",
    "薩提爾一致性溝通的核心。透過語言明確表達對客戶感受的理解，降低杏仁核的防衛反應，促進催產素釋放，建立情感連結。",
    "在客戶表達困難或疑慮時，立即給予同理，讓客戶感到被理解而非被推銷。",
    "我完全理解您的考量...",
    5, 12)

  // rules.ts:52
  const PositiveFaceSaving: Rule := Rule(
    "positive_face_saving_buffer", Positive, {ProductMarketing, ObjectionHandling}, None, Congruent,
    ["很正常", "可以理解", "很多人", "這是合理的", "我也會這樣想", "確實"],
    ["正常化客戶觀點", "避免直接否定"],
    "面子保護緩衝 (Face-Saving Buffer)",
    "台灣高語境文化的核心技巧。先肯定客戶的想法或顧慮是正常的，保護其面子，然後再進行觀念引導。避免讓客戶感到被指正或批評。",
    "當客戶有錯誤觀念或異議時，先正常化其想法，再進行 Pacing and Leading。",
    "這個想法很正常，很多客戶一開始也這樣認為...",
    4, 10)

  // rules.ts:67
  const PositiveEmpowerment: Rule := Rule(
    "positive_empowerment_validation", Positive, {ProductMarketing, ObjectionHandling}, None, Congruent,
    ["您很內行", "您的觀念很好", "您很精明", "您很懂", "您說得對", "您很專業", "您很有遠見"],
    ["肯定客戶能力", "讚美客戶特質"],
    "賦權與肯定 (Empowerment & Validation)",
    "特別適用於指責型和超理智型客戶。透過肯定其能力和判斷，滿足其優越感需求，將其從對立面轉化為盟友。基於薩提爾的賦權策略。",
    "面對挑剔或展現專業知識的客戶，不要反駁，而是肯定其標準高、眼光好。",
    "您對這些細節這麼在意，可見您是非常謹慎的人...",
    6, 13)

  // rules.ts:82
  const PositiveSafetyProvision: Rule := Rule(
    "positive_safety_provision", Positive, {ProductMarketing, ObjectionHandling}, None, Congruent,
    ["我們會陪著您", "不用擔心", "很安全", "穩健", "我們一步一步", "我會協助您", "放心"],
    ["提供安全感", "陪伴承諾"],
    "安全感提供 (Safety Provision)",
    "特別適用於討好型客戶。討好型客戶害怕做錯決定，需要強大的安全感和引導。透過承諾陪伴和支持，降低其決策焦慮。",
    "當客戶表現猶豫或焦慮時，提供明確的支持和陪伴承諾。",
    "別擔心，我們會一步一步陪著您完成，您不需要一個人承擔。",
    5, 11)

  // rules.ts:97
  const PositiveOpenQuestion: Rule := Rule(
    "positive_open_ended_question", Positive, {ProductMarketing, ObjectionHandling}, None, Congruent,
    ["您覺得", "您認為", "您的想法", "請問", "想請教", "您希望", "您需要"],
    ["開放式問句", "徵詢意見"],
    "開放式探索問題 (Open-Ended Discovery)",
    "展現對客戶意見的重視，給予其表達空間和掌控感。開放式問題能引導客戶自我探索需求，比封閉式問題更能建立信任。",
    "用開放式問題了解客戶真實需求，避免直接推銷或假設客戶需求。",
    "您覺得什麼樣的保障規劃會讓您比較安心？",
    3, 9)

  // rules.ts:112
  const PositiveHonestyFrame: Rule := Rule(
    "positive_honesty_transparency", Positive, {ProductMarketing, ObjectionHandling}, None, Congruent,
    ["我要誠實說", "實話告訴您", "我必須坦白", "老實說", "據實說明", "透明地講"],
    ["誠實框架", "透明揭露"],
    "透明誠實框架 (Honesty Frame)",
    "在台灣保險市場信任赤字的背景下，主動的誠實揭露是建立信任的關鍵。特別適用於投資型保單等敏感商品的說明。",
    "在說明產品風險或限制時，主動使用誠實框架，展現專業誠信。",
    "我要跟您誠實說明，這個商品確實有市場風險...",
    7, 14)

  // rules.ts:127
  const PositiveAutonomy: Rule := Rule(
    "positive_decision_autonomy", Positive, {ProductMarketing, ObjectionHandling}, None, Congruent,
    ["不急", "慢慢考慮", "沒有壓力", "您決定就好", "不勉強", "隨時都可以", "給您時間"],
    ["尊重決策權", "減壓用語"],
    "尊重決策自主權 (Decision Autonomy)",
    "降低客戶的杏仁核戒備反應。越是強調不強迫，客戶越感到安全，反而更願意考慮。這是反向心理學的應用。",
    "在適當時機表達不施壓，給予客戶心理空間。",
    "這個決定很重要，您慢慢考慮，沒有時間壓力。",
    4, 10)

  // rules.ts:142
  const PositiveConcreteSolution: Rule := Rule(
    "positive_concrete_solution", Positive, {ProductMarketing, ObjectionHandling}, None, Congruent,
    ["具體來說", "我們可以", "有個方法", "這樣規劃", "舉例來說", "比如說", "實際上"],
    ["提供具體方案", "實例說明"],
    "具體方案提供 (Concrete Solution)",
    "將抽象的保險概念轉化為具體可行的方案，降低認知負擔。具體性能增加可信度和可行性感知。",
    "當客戶表達預算或其他顧慮時，提供具體的、可操作的解決方案。",
    "具體來說，如果我們把保費分攤到每天，其實只是一杯咖啡的錢...",
    5, 11)

  // rules.ts:157
  const PositiveThirdPartyProof: Rule := Rule(
    "positive_social_proof", Positive, {ProductMarketing, ObjectionHandling}, None, Congruent,
    ["很多客戶", "大家都", "大部分人", "我們服務過", "普遍的選擇", "市場上"],
    ["社會認證", "他人經驗"],
    "社會認證 (Social Proof)",
    "利用從眾心理降低決策風險感知。特別適用於討好型客戶，他們傾向於跟隨多數人的選擇以避免犯錯。",
    "提供其他客戶的經驗或選擇，但要真實不能捏造。",
    "很多跟您情況類似的客戶都選擇這個方案，反應都很好。",
    4, 10)

  // rules.ts:172
  const PositivePersonalCommitment: Rule := Rule(
    "positive_personal_commitment", Positive, {ProductMarketing, ObjectionHandling}, None, Congruent,
    ["我保證", "我承諾", "我負責", "我會確保", "您可以信任我", "我向您保證"],
    ["個人承諾", "責任擔當"],
    "個人服務承諾 (Personal Commitment)",
    "將公司的抽象信任轉化為對業務員個人的信任。在台灣的關係文化中，人與人之間的信任往往強於對組織的信任。",
    "在適當時機做出個人服務承諾，但必須是自己能做到的。",
    "我向您保證，無論將來發生什麼狀況，我都會親自協助您處理理賠。",
    6, 12)

  // rules.ts:187
  const PositiveValueReframe: Rule := Rule(
    "positive_value_reframe", Positive, {ProductMarketing, ObjectionHandling}, None, Congruent,
    ["不是費用而是", "這代表", "真正的價值", "長遠來看", "換個角度", "其實是"],
    ["重新框架", "價值轉化"],
    "價值重新框架 (Value Reframing)",
    "NLP 的核心技巧。將客戶認知中的「成本」重新框架為「投資」或「保障」，改變其心理帳戶的分類。",
    "當客戶關注價格時,重新框架為價值、保障或責任。",
    "這不只是一筆費用，這代表著您對家人的承諾和責任。",
    5, 11)

  // rules.ts:202
  const PositiveGuanxiBuilding: Rule := Rule(
    "positive_guanxi_connection", Positive, {PhoneInvite, ProductMarketing}, None, Congruent,
    ["有緣", "認識您是我的榮幸", "交個朋友", "長期合作", "互相照應", "建立關係"],
    ["關係建立", "人情連結"],
    "關係資本建立 (Guanxi Building)",
    "台灣商業文化的核心。將交易關係轉化為人際關係，建立長期的互惠網絡。這符合台灣的集體主義文化價值觀。",
    "在適當時機表達希望建立長期關係而非一次性交易。",
    "能認識您是我的榮幸，希望未來能有機會為您服務。",
    4, 10)

  // rules.ts:217
  const PositiveStructureProvision: Rule := Rule(
    "positive_structure_guidance", Positive, {ProductMarketing, ObjectionHandling}, None, Congruent,
    ["我們分三個步驟", "首先", "接下來", "最後", "整個流程", "讓我說明"],
    ["提供結構", "步驟說明"],
    "結構與引導提供 (Structure Provision)",
    "薩提爾變革模型中的關鍵。在客戶面對複雜資訊感到混亂時，提供清晰的結構能降低焦慮，增加掌控感。",
    "將複雜的保險資訊拆解為清晰的步驟或架構。",
    "讓我用三個步驟跟您說明這個規劃...",
    3, 9)

  // rules.ts:232
  const PositiveFlexibility: Rule := Rule(
    "positive_flexibility_adaptation", Positive, {ProductMarketing, ObjectionHandling}, None, Congruent,
    ["我們可以調整", "彈性規劃", "客製化", "配合您的", "有其他方案", "可以修改"],
    ["展現彈性", "客製化意願"],
    "彈性與適應性 (Flexibility & Adaptation)",
    "展現願意為客戶調整方案的態度，讓客戶感到被重視。避免給人「一套方案賣給所有人」的制式化印象。",
    "當客戶表達特殊需求或預算限制時，展現調整意願。",
    "這個方案我們可以根據您的預算來調整，不是固定的。",
    4, 10)

  // rules.ts:247
  const PositiveRiskAwareness: Rule := Rule(
    "positive_risk_disclosure", Positive, {ProductMarketing}, None, Congruent,
    ["必須注意", "有風險", "除外責任", "限制條件", "這點要特別說明", "可能的狀況"],
    ["風險揭露", "限制說明"],
    "主動風險揭露 (Proactive Risk Disclosure)",
    "反向操作的信任建立。主動揭露產品限制和風險，展現專業誠信，反而能增加客戶對業務員的信任。",
    "在客戶詢問前，主動說明產品的限制和除外責任。",
    "這個商品確實很好，但有幾點除外責任我必須跟您說明清楚...",
    6, 13)

  // rules.ts:267
  const TeleAvoidantBusyExcuse: Rule := Rule(
    "tele_avoidant_busy_excuse", Negative, {PhoneInvite}, Some(Avoidant), Irrelevant,
    ["開會", "開車", "在忙", "沒空", "趕時間", "忙"],
    ["短句", "狀態描述", "結束對話請求"],
    "假性忙碌 (False Busy)",
    "薩提爾『打岔型』：並非真的在忙，而是啟動『反射性拒絕』機制，避免認知負擔。這是大腦為了節省認知資源的自動防衛反應。",
    "突破反射防衛：不爭辯忙碌事實，改用『15秒鉤子』換取注意力。接受其忙碌框架，但要求極小承諾。",
    "好，只耽誤您15秒，這通電話主要目的是...",
    -5, 10)

  // rules.ts:283
  const TeleAvoidantSendInfo: Rule := Rule(
    "tele_avoidant_send_info_only", Negative, {PhoneInvite}, Some(Avoidant), Irrelevant,
    ["寄信", "寄資料", "傳真", "看一看", "有興趣再說", "email", "寄給我"],
    ["索取資料動作", "未來不確定承諾"],
    "敷衍打發 (Brush-off)",
    "典型的『軟性拒絕』。透過答應看資料來結束通話，實際上收到後不會閱讀。這是台灣高語境文化中避免直接拒絕的策略。",
    "門檻策略：『資料很多，為了不浪費您時間，我只寄您最需要的，請問您幾歲？』強迫互動。",
    "資料很多，為了精準，請問您...",
    -5, 10)

  // rules.ts:299
  const TeleSkepticalDataSource: Rule := Rule(
    "tele_skeptical_data_source", Negative, {PhoneInvite}, Some(Skeptical), Blaming,
    ["怎麼有電話", "誰給你的", "個資", "哪裡拿到", "亂槍打鳥", "隱私"],
    ["反問句", "質疑來源", "負面情緒詞"],
    "信任測試 (Trust Test)",
    "薩提爾『指責型』：因缺乏安全感而先發制人，測試業務員的誠信與正當性。這反映了台灣社會對詐騙的高度警戒。",
    "一致性應對 (Congruence)：誠實告知來源（如問卷、舊客介紹），不閃躲，展現專業的一致性。",
    "是您上個月在網路上填寫了...，所以我特地...",
    -8, 15)

  // rules.ts:315
  const TeleSkepticalUnwantedCall: Rule := Rule(
    "tele_skeptical_unwanted_cold_call", Negative, {PhoneInvite}, Some(Skeptical), Blaming,
    ["不需要", "推銷", "很煩", "又是保險", "別打來"],
    ["直接否定句", "厭惡情緒詞"],
    "硬性拒絕 (Hard Rejection)",
    "過往可能有不好的推銷經驗，產生刻板印象。這是一種防衛性的攻擊反應。",
    "去標籤化策略：『我不是來推銷保單，而是來通知一個您可能忽略的權益。』",
    "理解您常接電話，但我今天打來是因為...",
    -9, 15)

  // rules.ts:331
  const TeleNeutralCuriosity: Rule := Rule(
    "tele_neutral_curiosity", Negative, {PhoneInvite}, Some(Neutral), Placating,
    ["什麼東西", "送什麼", "抽獎", "免費", "贈品"],
    ["針對贈品利益的提問"],
    "誘因驅動 (Incentive Driven)",
    "對保險無感，只對『貪小便宜』有感。薩提爾『討好型』(順從慾望)。",
    "鉤子策略：利用贈品作為見面理由，但強調『名額有限』，製造稀缺性。",
    "這個健檢禮很搶手，我特地留一份給您，明天方便...",
    -2, 8)

  // rules.ts:347
  const TeleNeutralHurried: Rule := Rule(
    "tele_neutral_hurried", Negative, {PhoneInvite}, Some(Neutral), Irrelevant,
    ["快點", "重點", "然後呢", "趕時間", "講重點"],
    ["催促詞", "短句"],
    "時間施壓 (Time Pressure)",
    "耐心極低，準備掛斷的前兆。並非真的趕時間，而是話題無趣。",
    "直球對決：直接講出最核心利益點 (Killer Benefit)，放棄鋪陳與寒暄。",
    "好，重點是這張保單能幫您節稅xx元...",
    -6, 12)

  // rules.ts:363
  const TeleInsuredSaturation: Rule := Rule(
    "tele_insured_saturation", Negative, {PhoneInvite}, Some(HasInsurance), SuperReasonable,
    ["買滿了", "足夠", "幾十張", "不用了", "很多張"],
    ["完成式", "飽和狀態描述", "拒絕"],
    "能力防衛罩 (Competence Shield)",
    "薩提爾『超理智型』：透過展現已有資源來維持優越感，拒絕被推銷。",
    "賦權策略 (Validating)：肯定其觀念，轉化為『保單健檢』。不挑戰既有決策，而是尋找動態缺口。",
    "您觀念很棒！但醫療技術在變，這份舊保單可能...",
    -6, 12)

  // rules.ts:379
  const TeleInsuredFriendAgent: Rule := Rule(
    "tele_insured_friend_agent", Negative, {PhoneInvite}, Some(HasInsurance), Placating,
    ["跟朋友買", "人情", "親戚在做", "不好意思", "朋友是業務"],
    ["人際關係詞", "忠誠度聲明"],
    "人情障礙 (Loyalty Barrier)",
    "台灣重人情 (Guanxi)。背叛朋友會有罪惡感。對原業務員是『討好型』。",
    "互補策略：不取代朋友，強調『第二意見』或『補足朋友沒做的』。",
    "朋友服務很好，我只是幫您做個客觀的第二意見...",
    -5, 10)

  // rules.ts:400
  const SalesNeutralPassiveListening: Rule := Rule(
    "sales_neutral_passive_listening", Negative, {ProductMarketing, ObjectionHandling}, Some(Neutral), Placating,
    ["喔", "嗯", "是喔", "嘿", "好"],
    ["單字回應", "極短句", "無主動提問"],
    "禮貌性敷衍 (Polite Disengagement)",
    "薩提爾『討好型』：不想當面拒絕傷和氣，但實際上心不在焉（人在心不在）。",
    "喚醒策略：使用封閉式二擇一問題，或突然改變語速來抓回注意力。",
    "陳先生，關於這點您比較在意保障額度還是保費？",
    -3, 8)

  // rules.ts:416
  const SalesNeutralAmbiguousAffirmation: Rule := Rule(
    "sales_neutral_ambiguous_affirmation", Negative, {ProductMarketing, ObjectionHandling}, Some(Neutral), Placating,
    ["是不錯", "還可以", "沒意見", "都可以", "不錯啦"],
    ["弱肯定詞", "無延伸意見", "語尾助詞"],
    "假性同意 (Pseudo Agreement)",
    "表面順從但內心無動感。在台灣語境中，『是不錯啦』通常意味著『但我不會買』。",
    "測試性收單：既然沒意見，就嘗試推進成交，逼出真實異議。",
    "既然覺得不錯，那我們試算一下保費，看哪個方案適合？",
    -4, 9)

  // rules.ts:432
  const SalesNeutralSilent: Rule := Rule(
    "sales_neutral_silent", Negative, {ProductMarketing, ObjectionHandling}, Some(Neutral), Irrelevant,
    ["...", "嗯哼"],
    ["極低詞彙密度", "長時間停頓"],
    "沉默抗拒 (Silent Resistance)",
    "沉默是強大的防衛。薩提爾『打岔/抽離』。讓業務員尷尬而自亂陣腳。",
    "鏡像沉默：業務員也保持沉默，製造適度壓力，迫使客戶開口。",
    "(保持微笑與沉默，等待客戶開口)",
    -8, 13)

  // rules.ts:448
  const SalesAvoidantSoftRejectionConsider: Rule := Rule(
    "sales_avoidant_soft_rejection_consider", Negative, {ProductMarketing, ObjectionHandling}, Some(Avoidant), Placating,
    ["再看看", "考慮一下", "再研究", "回去想", "不急", "想一想"],
    ["模糊時間詞", "延遲行動動詞"],
    "軟性拒絕 - 推託 (Soft Rejection - Deferral)",
    "台灣語用特色：『考慮』通常等於『拒絕』。害怕當面衝突，給雙方台階下。",
    "具體化策略：直接詢問『考慮的具體點』是預算還是條款，不讓話題懸空。",
    "了解，通常考慮是因為預算還是條款細節？",
    -7, 12)

  // rules.ts:464
  const SalesAvoidantAuthorityDeferral: Rule := Rule(
    "sales_avoidant_authority_deferral", Negative, {ProductMarketing, ObjectionHandling}, Some(Avoidant), Placating,
    ["問老婆", "問老公", "家人", "商量", "作主", "太太", "先生"],
    ["推託對象", "第三方", "決策權轉移"],
    "決策權轉移 (Authority Deferral)",
    "利用『不在場的第三方』作為拒絕的理由，避免承擔直接拒絕的心理壓力。",
    "盟友策略：將其變成盟友，詢問『若您自己決定會買嗎？』釐清真實意願。",
    "如果不考慮家人的意見，您自己喜歡這份規劃嗎？",
    -6, 11)

  // rules.ts:480
  const SalesAvoidantBudgetExcuse: Rule := Rule(
    "sales_avoidant_budget_excuse", Negative, {ProductMarketing, ObjectionHandling}, Some(Avoidant), Irrelevant,
    ["沒錢", "太貴", "手頭緊", "最近花費大", "吃土", "負擔不起"],
    ["經濟困難詞彙", "拒絕購買"],
    "價格抗拒 (Price Resistance)",
    "可能是真沒錢，也可能是『價值<價格』的婉轉說法。薩提爾『打岔型』。",
    "拆解策略：將總價拆解為『每天幾元』，或詢問『若不考慮預算』來測試真偽。",
    "若不看價格，這個保障內容是您需要的嗎？",
    -7, 11)

  // rules.ts:496
  const SalesAvoidantSelfDeprecating: Rule := Rule(
    "sales_avoidant_self_deprecating", Negative, {ProductMarketing, ObjectionHandling}, Some(Avoidant), Placating,
    ["我不懂啦", "我很笨", "你決定就好", "隨緣", "看你"],
    ["自我貶低詞", "放棄思考"],
    "依賴卸責 (Dependency)",
    "薩提爾『討好型』極致。害怕做錯決定，乾脆不做決定或全聽別人的。",
    "引導與保證：給予極大的安全感與簡單選項，『多數人都選這個』。",
    "別擔心，這個方案是最多人選的標準配備，很安全。",
    -4, 9)

  // rules.ts:512
  const SalesSkepticalPriceCompare: Rule := Rule(
    "sales_skeptical_price_compare", Negative, {ProductMarketing, ObjectionHandling}, Some(Skeptical), Blaming,
    ["別家", "便宜", "網路上", "CP值", "貴", "比較"],
    ["比較級句子", "引用外部資訊"],
    "價值挑戰 (Value Challenge)",
    "薩提爾『指責型』：透過貶低產品價值來爭取談判籌碼或證明自己精明。",
    "差異化策略：認同價格差異，立即轉向『價值/理賠服務』的獨特性說明。",
    "沒錯，網路確實便宜，但理賠時我們多了專人服務...",
    -5, 12)

  // rules.ts:528
  const SalesSkepticalFinePrint: Rule := Rule(
    "sales_skeptical_fine_print", Negative, {ProductMarketing, ObjectionHandling}, Some(Skeptical), Blaming,
    ["陷阱", "文字遊戲", "不賠", "看清楚", "條款", "除外"],
    ["負面名詞", "警告語氣"],
    "信任斷層 (Trust Gap)",
    "深層恐懼：害怕被騙。薩提爾『指責型』背後是對受傷的焦慮。",
    "透明化策略：主動指出『除外責任』條款，展現比客戶更嚴謹的誠實。",
    "您很內行，這條款確實要注意，我帶您看第10條...",
    -9, 15)

  // rules.ts:544
  const SalesSkepticalReputation: Rule := Rule(
    "sales_skeptical_reputation", Negative, {ProductMarketing, ObjectionHandling}, Some(Skeptical), Blaming,
    ["網評", "負評", "那家公司", "新聞", "爛", "評價"],
    ["引用公司負面消息", "質疑"],
    "公司信任危機 (Company Distrust)",
    "將對公司的印象投射到業務員身上。薩提爾『指責型』。",
    "切割與承諾：承認公司過去問題，強調『我』個人的服務承諾與差異。",
    "公司確實有改進空間，但我保證我的服務是...",
    -9, 15)

  // rules.ts:560
  const SalesSkepticalReturnRate: Rule := Rule(
    "sales_skeptical_return_rate", Negative, {ProductMarketing, ObjectionHandling}, Some(Skeptical), SuperReasonable,
    ["利率", "定存", "股票", "通膨", "划不來", "報酬率"],
    ["金融商品比較", "負面評價"],
    "投資比較 (Investment Comparison)",
    "將保險錯誤定錨為投資商品。薩提爾『超理智』，只看數字忽略風險。",
    "風險重新定錨：強調保險的『槓桿』與『保本』功能，非單純投報率。",
    "股票賺錢很快，但保險是為了留住錢，這是風險管理。",
    -6, 12)

  // rules.ts:576
  const SalesInsuredKnowItAll: Rule := Rule(
    "sales_insured_know_it_all", Negative, {ProductMarketing, ObjectionHandling}, Some(HasInsurance), SuperReasonable,
    ["那個我知道", "不用解釋", "我看過", "簡單講", "懂"],
    ["打斷句", "知識宣稱"],
    "主導權展示 (Dominance Display)",
    "薩提爾『超理智』控制狂。不喜歡處於『被教導』的低位。",
    "請教策略：滿足其優越感，『既然您懂，想請教您怎麼看這點？』",
    "您是行家！那這部分我就不贅述，直接看重點...",
    -7, 13)

  // rules.ts:597
  const DisputeSkepticalPreExisting: Rule := Rule(
    "dispute_skeptical_pre_existing", Negative, {ObjectionHandling}, Some(Skeptical), Blaming,
    ["沒說", "不知情", "既往症", "硬凹", "亂講", "沒告訴我"],
    ["否認句", "指責句"],
    "義務否認 (Denial of Duty)",
    "面對拒賠風險，啟動『指責型』防衛，否認自身的告知義務。",
    "法理情兼顧：先同理其挫折感，再客觀呈現投保時的健告文件。",
    "我理解這讓人錯愕，但根據健告書上的紀錄...",
    -10, 18)

  // rules.ts:613
  const DisputeInsuredLegalThreat: Rule := Rule(
    "dispute_insured_legal_threat", Negative, {ObjectionHandling}, Some(HasInsurance), Blaming,
    ["金管會", "評議中心", "媒體", "蘋果", "存證信函", "告你"],
    ["機構名詞", "威脅", "期限條件句"],
    "升級威脅 (Escalation Threat)",
    "薩提爾『超理智』+『指責』。利用外部權威施壓，尋求快速解決。",
    "降溫策略：不被威脅激怒，冷靜重申處理誠意，並提供正規申訴管道以示無懼。",
    "這是您的權利，但我更希望能幫您直接解決問題...",
    -10, 18)

  // rules.ts:629
  const DisputeSkepticalAgentError: Rule := Rule(
    "dispute_skeptical_agent_error", Negative, {ObjectionHandling}, Some(Skeptical), Blaming,
    ["當初", "業務員說", "亂賣", "沒講清楚", "騙我簽名"],
    ["過去式", "指責業務員行為"],
    "招攬不實指控 (Mis-selling Accusation)",
    "薩提爾『指責型』。將責任外推給前手業務員，試圖獲得例外處理。",
    "同理但不認錯：同理其感受，但釐清事實，避免替前手業務員背黑鍋。",
    "當時的情況我沒參與，但現在我能幫您做的是...",
    -10, 18)

  // rules.ts:645
  const DisputeNeutralConfusion: Rule := Rule(
    "dispute_neutral_confusion", Negative, {ObjectionHandling}, Some(Neutral), Placating,
    ["怎麼會", "我不懂", "複雜", "隨便啦", "麻煩", "不知道"],
    ["困惑詞", "放棄", "被動語態"],
    "習得無助 (Helplessness)",
    "薩提爾『討好型』變體。面對複雜理賠流程感到無力，可能放棄權益或累積隱性不滿。",
    "簡化引導：擔任『導遊』角色，將流程拆解為簡單步驟，消除無助感。",
    "別擔心，我們只要補這張單子就好，我教您寫...",
    -4, 9)

  // rules.ts:661
  const DisputeAvoidantGhosting: Rule := Rule(
    "dispute_avoidant_ghosting", Negative, {ObjectionHandling}, Some(Avoidant), Irrelevant,
    ["沒收到", "忘記", "太忙", "下次", "找不到"],
    ["遺忘忽略藉口", "拖延"],
    "流程拖延 (Process Stalling)",
    "面對理賠補件的繁瑣感到逃避。薩提爾『打岔型』。",
    "便利性策略：提供『到府收件』或『拍照上傳』的最簡便路徑。",
    "沒關係，您現在拍給我，我幫您填。",
    -6, 11)

  /** The positive half of the table, in table order (rules.ts:682-697). */
  const PositiveRuleTable: seq<Rule> := [
    PositiveEmpathy,
    PositiveFaceSaving,
    PositiveEmpowerment,
    PositiveSafetyProvision,
    PositiveOpenQuestion,
    PositiveHonestyFrame,
    PositiveAutonomy,
    PositiveConcreteSolution,
    PositiveThirdPartyProof,
    PositivePersonalCommitment,
    PositiveValueReframe,
    PositiveGuanxiBuilding,
    PositiveStructureProvision,
    PositiveFlexibility,
    PositiveRiskAwareness
  ]

  /** The negative half of the table, in table order (rules.ts:699-728). */
  const NegativeRuleTable: seq<Rule> := [
    TeleAvoidantBusyExcuse,
    TeleAvoidantSendInfo,
    TeleSkepticalDataSource,
    TeleSkepticalUnwantedCall,
    TeleNeutralCuriosity,
    TeleNeutralHurried,
    TeleInsuredSaturation,
    TeleInsuredFriendAgent,
    SalesNeutralPassiveListening,
    SalesNeutralAmbiguousAffirmation,
    SalesNeutralSilent,
    SalesAvoidantSoftRejectionConsider,
    SalesAvoidantAuthorityDeferral,
    SalesAvoidantBudgetExcuse,
    SalesAvoidantSelfDeprecating,
    SalesSkepticalPriceCompare,
    SalesSkepticalFinePrint,
    SalesSkepticalReputation,
    SalesSkepticalReturnRate,
    SalesInsuredKnowItAll,
    DisputeSkepticalPreExisting,
    DisputeInsuredLegalThreat,
    DisputeSkepticalAgentError,
    DisputeNeutralConfusion,
    DisputeAvoidantGhosting
  ]

  /** `RAPPORT_RULES`: the 15 positive rules followed by the 25 negative ones. */
  const RapportRules: seq<Rule> := PositiveRuleTable + NegativeRuleTable

  // =====================================================================
  // Well-formedness of the table

  /** The integrity conditions the library is designed to satisfy: at least
      one keyword and one scenario; a negative rule names a customer type and
      lowers rapport; a positive rule names none, is congruent and raises
      rapport; the weight lies in [0.8, 1.8]. */
  predicate WellFormedRule(r: Rule) {
    && |r.keywords| > 0
    && (forall k :: 0 <= k < |r.keywords| ==> |r.keywords[k]| > 0)
    && r.scenario != {}
    && (r.ruleType == Negative ==> r.customerType.Some? && r.rapportImpactScore < 0)
    && (r.ruleType == Positive ==>
          r.customerType.None? && r.satirPosture == Congruent && r.rapportImpactScore > 0)
    && 8 <= r.weightTenths <= 18
  }

  lemma PositiveTableWellFormed0()
    ensures forall i :: 0 <= i < 5 && i < |PositiveRuleTable| ==>
      WellFormedRule(PositiveRuleTable[i]) && PositiveRuleTable[i].ruleType == Positive
  {
  }

  lemma PositiveTableWellFormed5()
    ensures forall i :: 5 <= i < 10 && i < |PositiveRuleTable| ==>
      WellFormedRule(PositiveRuleTable[i]) && PositiveRuleTable[i].ruleType == Positive
  {
  }

  lemma PositiveTableWellFormed10()
    ensures forall i :: 10 <= i < 15 && i < |PositiveRuleTable| ==>
      WellFormedRule(PositiveRuleTable[i]) && PositiveRuleTable[i].ruleType == Positive
  {
  }

  lemma PositiveTableWellFormed()
    ensures |PositiveRuleTable| == 15
    ensures forall i :: 0 <= i < |PositiveRuleTable| ==>
      WellFormedRule(PositiveRuleTable[i]) && PositiveRuleTable[i].ruleType == Positive
  {
    PositiveTableWellFormed0();
    PositiveTableWellFormed5();
    PositiveTableWellFormed10();
  }

  lemma NegativeTableWellFormed0()
    ensures forall i :: 0 <= i < 5 && i < |NegativeRuleTable| ==>
      WellFormedRule(NegativeRuleTable[i]) && NegativeRuleTable[i].ruleType == Negative
  {
  }

  lemma NegativeTableWellFormed5()
    ensures forall i :: 5 <= i < 10 && i < |NegativeRuleTable| ==>
      WellFormedRule(NegativeRuleTable[i]) && NegativeRuleTable[i].ruleType == Negative
  {
  }

  lemma NegativeTableWellFormed10()
    ensures forall i :: 10 <= i < 15 && i < |NegativeRuleTable| ==>
      WellFormedRule(NegativeRuleTable[i]) && NegativeRuleTable[i].ruleType == Negative
  {
  }

  lemma NegativeTableWellFormed15()
    ensures forall i :: 15 <= i < 20 && i < |NegativeRuleTable| ==>
      WellFormedRule(NegativeRuleTable[i]) && NegativeRuleTable[i].ruleType == Negative
  {
  }

  lemma NegativeTableWellFormed20()
    ensures forall i :: 20 <= i < 25 && i < |NegativeRuleTable| ==>
      WellFormedRule(NegativeRuleTable[i]) && NegativeRuleTable[i].ruleType == Negative
  {
  }

  lemma NegativeTableWellFormed()
    ensures |NegativeRuleTable| == 25
    ensures forall i :: 0 <= i < |NegativeRuleTable| ==>
      WellFormedRule(NegativeRuleTable[i]) && NegativeRuleTable[i].ruleType == Negative
  {
    NegativeTableWellFormed0();
    NegativeTableWellFormed5();
    NegativeTableWellFormed10();
    NegativeTableWellFormed15();
    NegativeTableWellFormed20();
  }

  /** Every rule of the library is well formed. */
  lemma RuleTableWellFormed()
    ensures |RapportRules| == 40
    ensures forall i :: 0 <= i < |RapportRules| ==> WellFormedRule(RapportRules[i])
    ensures forall i :: 0 <= i < |RapportRules| ==> (RapportRules[i].ruleType == Positive <==> i < 15)
  {
    PositiveTableWellFormed();
    NegativeTableWellFormed();
  }


  /** The position of a rule in the table, recovered from its id by
      inspecting a few of its characters (every id has at least 20). This
      is a proof device for `RuleIdsDistinct` only: nothing in the rule
      table computes it. */
  function IdIndex(id: string): int {
    if |id| < 20 then -1 else
    if id[9] == 'c' then
      7
    else if id[9] == 'd' then
      if id[14] == 'b' then
        15
      else if id[14] == 'i' then
        6
      else if id[14] == 's' then
        16
      else -1
    else if id[9] == 'e' then
      if id[12] == 'a' then
        0
      else if id[12] == 'o' then
        2
      else if id[12] == 'r' then
        38
      else -1
    else if id[9] == 'f' then
      if id[10] == 'a' then
        1
      else if id[10] == 'l' then
        13
      else -1
    else if id[9] == 'g' then
      11
    else if id[9] == 'h' then
      5
    else if id[9] == 'i' then
      if id[17] == 'd' then
        28
      else if id[17] == 'f' then
        26
      else if id[17] == 'l' then
        29
      else if id[17] == 't' then
        27
      else -1
    else if id[9] == 'k' then
      if id[18] == 'a' then
        37
      else if id[18] == 'p' then
        35
      else -1
    else if id[9] == 'n' then
      36
    else if id[9] == 'o' then
      4
    else if id[9] == 'p' then
      if id[18] == 'c' then
        9
      else if id[18] == 'i' then
        30
      else if id[18] == 'n' then
        31
      else if id[18] == 'p' then
        32
      else if id[18] == 't' then
        33
      else -1
    else if id[9] == 'r' then
      if id[13] == '_' then
        14
      else if id[13] == 'c' then
        19
      else if id[13] == 'f' then
        22
      else if id[13] == 'h' then
        20
      else if id[13] == 's' then
        21
      else -1
    else if id[9] == 's' then
      if id[10] == 'a' then
        3
      else if id[10] == 'o' then
        8
      else if id[10] == 't' then
        12
      else -1
    else if id[9] == 't' then
      if id[15] == 'a' then
        23
      else if id[15] == 'd' then
        17
      else if id[15] == 'i' then
        25
      else if id[15] == 'm' then
        24
      else if id[15] == 'u' then
        18
      else -1
    else if id[9] == 'u' then
      34
    else if id[9] == 'v' then
      if id[0] == 'd' then
        39
      else if id[0] == 'p' then
        10
      else -1
    else -1
  }

  lemma IdIndexRecovers0()
    ensures forall i :: 0 <= i < 5 ==> IdIndex(RapportRules[i].id) == i
  {
  }

  lemma IdIndexRecovers5()
    ensures forall i :: 5 <= i < 10 ==> IdIndex(RapportRules[i].id) == i
  {
  }

  lemma IdIndexRecovers10()
    ensures forall i :: 10 <= i < 15 ==> IdIndex(RapportRules[i].id) == i
  {
  }

  lemma IdIndexRecovers15()
    ensures forall i :: 15 <= i < 20 ==> IdIndex(RapportRules[i].id) == i
  {
  }

  lemma IdIndexRecovers20()
    ensures forall i :: 20 <= i < 25 ==> IdIndex(RapportRules[i].id) == i
  {
  }

  lemma IdIndexRecovers25()
    ensures forall i :: 25 <= i < 30 ==> IdIndex(RapportRules[i].id) == i
  {
  }

  lemma IdIndexRecovers30()
    ensures forall i :: 30 <= i < 35 ==> IdIndex(RapportRules[i].id) == i
  {
  }

  lemma IdIndexRecovers35()
    ensures forall i :: 35 <= i < 40 ==> IdIndex(RapportRules[i].id) == i
  {
  }

  /** The ids of the table are pairwise distinct: `IdIndex` maps each
      rule's id back to that rule's position. */
  lemma RuleIdsDistinct()
    ensures forall i, j :: 0 <= i < j < |RapportRules| ==> RapportRules[i].id != RapportRules[j].id
  {
    IdIndexRecovers0(); IdIndexRecovers5(); IdIndexRecovers10(); IdIndexRecovers15();
    IdIndexRecovers20(); IdIndexRecovers25(); IdIndexRecovers30(); IdIndexRecovers35();
    assert |RapportRules| == 40;
    forall i, j | 0 <= i < j < |RapportRules| ensures RapportRules[i].id != RapportRules[j].id {
      assert IdIndex(RapportRules[i].id) == i && IdIndex(RapportRules[j].id) == j;
    }
  }

  // =====================================================================
  // Queries

  /** The scenario test shared by the three filters: the target scenario
      equals, or is contained in, the rule's scenario. */
  predicate ScenarioMatches(r: Rule, s: Scenario) {
    s in r.scenario
  }

  /** The three conditions of `getRelevantRules`. A positive rule passes the
      customer-type test whatever its customer type. */
  predicate IsRelevant(r: Rule, s: Scenario, c: CustomerType, t: Option<RuleType>) {
    && ScenarioMatches(r, s)
    && (r.ruleType == Positive || r.customerType == Some(c))
    && (t.None? || r.ruleType == t.value)
  }

  /** `getRelevantRules(scenario, customerType, ruleType?)` */
  function GetRelevantRules(scenario: Scenario, customerType: CustomerType,
                            ruleType: Option<RuleType> := None): (rules: seq<Rule>)
    ensures forall i :: 0 <= i < |rules| ==> IsRelevant(rules[i], scenario, customerType, ruleType)
  {
    Filter(RapportRules, r => IsRelevant(r, scenario, customerType, ruleType))
  }

  predicate IsPositiveFor(r: Rule, s: Option<Scenario>) {
    r.ruleType == Positive && (s.None? || ScenarioMatches(r, s.value))
  }

  /** `getPositiveRules(scenario?)` */
  function GetPositiveRules(scenario: Option<Scenario> := None): (rules: seq<Rule>)
    ensures forall i :: 0 <= i < |rules| ==> rules[i].ruleType == Positive
    ensures scenario.Some? ==> forall i :: 0 <= i < |rules| ==> scenario.value in rules[i].scenario
  {
    Filter(RapportRules, r => IsPositiveFor(r, scenario))
  }

  predicate IsNegativeFor(r: Rule, s: Option<Scenario>, c: Option<CustomerType>) {
    && r.ruleType == Negative
    && (s.None? || ScenarioMatches(r, s.value))
    && (c.None? || r.customerType == c)
  }

  /** `getNegativeRules(scenario?, customerType?)`: an omitted filter passes
      every rule. */
  function GetNegativeRules(scenario: Option<Scenario> := None,
                            customerType: Option<CustomerType> := None): (rules: seq<Rule>)
    ensures forall i :: 0 <= i < |rules| ==> rules[i].ruleType == Negative
    ensures scenario.Some? ==> forall i :: 0 <= i < |rules| ==> scenario.value in rules[i].scenario
    ensures customerType.Some? ==> forall i :: 0 <= i < |rules| ==> rules[i].customerType == customerType
  {
    Filter(RapportRules, r => IsNegativeFor(r, scenario, customerType))
  }

  /** `RAPPORT_RULES.find(rule => rule.id === id)` over any sequence of rules:
      the first rule with that id, if there is one. */
  function FindById(rules: seq<Rule>, id: string): (found: Option<Rule>)
    ensures found.Some? ==>
      exists k :: 0 <= k < |rules| && rules[k] == found.value && found.value.id == id &&
        forall j :: 0 <= j < k ==> rules[j].id != id
    ensures found.None? <==> forall k :: 0 <= k < |rules| ==> rules[k].id != id
  {
    if |rules| == 0 then None
    else if rules[0].id == id then Some(rules[0])
    else
      var rest := FindById(rules[1..], id);
      assert forall k :: 1 <= k < |rules| ==> rules[k] == rules[1..][k - 1];
      if rest.Some? then
        ghost var k :| 0 <= k < |rules[1..]| && rules[1..][k] == rest.value && rest.value.id == id &&
          forall j :: 0 <= j < k ==> rules[1..][j].id != id;
        assert rules[k + 1] == rest.value;
        rest
      else
        rest
  }

  /** `getRuleById(id)` */
  function GetRuleById(id: string): (found: Option<Rule>)
    ensures found.Some? ==>
              found.value.id == id && exists k :: 0 <= k < |RapportRules| && RapportRules[k] == found.value
    ensures found.None? <==> forall k :: 0 <= k < |RapportRules| ==> RapportRules[k].id != id
  {
    FindById(RapportRules, id)
  }

  // =====================================================================
  // Properties of the queries

  /** `getRelevantRules(s, c, t)` is the order-preserving sublist of the
      table of exactly the rules that meet its three conditions. */
  lemma GetRelevantRulesSelects(s: Scenario, c: CustomerType, t: Option<RuleType>)
    ensures IsSublist(GetRelevantRules(s, c, t), RapportRules)
    ensures forall r :: r in GetRelevantRules(s, c, t) <==>
      && r in RapportRules
      && s in r.scenario
      && (r.ruleType == Positive || r.customerType == Some(c))
      && (t.None? || r.ruleType == t.value)
  {
    FilterSublist(RapportRules, r => IsRelevant(r, s, c, t));
    FilterMembers(RapportRules, r => IsRelevant(r, s, c, t));
  }

  /** `getPositiveRules(s?)` is the order-preserving sublist of the positive
      rules for `s`. */
  lemma GetPositiveRulesSelects(s: Option<Scenario>)
    ensures IsSublist(GetPositiveRules(s), RapportRules)
    ensures forall r :: r in GetPositiveRules(s) <==>
      r in RapportRules && r.ruleType == Positive && (s.None? || s.value in r.scenario)
  {
    FilterSublist(RapportRules, r => IsPositiveFor(r, s));
    FilterMembers(RapportRules, r => IsPositiveFor(r, s));
  }

  /** `getNegativeRules(s?, c?)` is the order-preserving sublist of the
      negative rules for `s` and `c`, an omitted filter passing every rule. */
  lemma GetNegativeRulesSelects(s: Option<Scenario>, c: Option<CustomerType>)
    ensures IsSublist(GetNegativeRules(s, c), RapportRules)
    ensures forall r :: r in GetNegativeRules(s, c) <==>
      && r in RapportRules
      && r.ruleType == Negative
      && (s.None? || s.value in r.scenario)
      && (c.None? || r.customerType == c)
  {
    FilterSublist(RapportRules, r => IsNegativeFor(r, s, c));
    FilterMembers(RapportRules, r => IsNegativeFor(r, s, c));
  }

  /** In a sequence whose ids are pairwise distinct, looking up the id of
      the rule at position `i` finds that rule. */
  lemma FindByIdDistinct(rules: seq<Rule>, i: nat)
    requires i < |rules|
    requires forall a, b :: 0 <= a < b < |rules| ==> rules[a].id != rules[b].id
    ensures FindById(rules, rules[i].id) == Some(rules[i])
  {
    var found := FindById(rules, rules[i].id);
    var k :| 0 <= k < |rules| && rules[k] == found.value && found.value.id == rules[i].id &&
      forall j :: 0 <= j < k ==> rules[j].id != rules[i].id;
    if k < i {
      assert rules[k].id != rules[i].id;
    }
  }

  /** Looking up any rule's id gives back that very rule. */
  lemma GetRuleByIdFindsEachRule(i: nat)
    requires i < |RapportRules|
    ensures GetRuleById(RapportRules[i].id) == Some(RapportRules[i])
  {
    RuleIdsDistinct();
    FindByIdDistinct(RapportRules, i);
  }

  /** Without a scenario, `getPositiveRules` returns the 15 positive rules. */
  lemma AllPositiveRules()
    ensures GetPositiveRules() == PositiveRuleTable
    ensures |GetPositiveRules()| == 15
  {
    PositiveTableWellFormed();
    NegativeTableWellFormed();
    var p := (r: Rule) => IsPositiveFor(r, None);
    FilterConcat(PositiveRuleTable, NegativeRuleTable, p);
    FilterAll(PositiveRuleTable, p);
    FilterNone(NegativeRuleTable, p);
  }

  /** Without filters, `getNegativeRules` returns the 25 negative rules. */
  lemma AllNegativeRules()
    ensures GetNegativeRules() == NegativeRuleTable
    ensures |GetNegativeRules()| == 25
  {
    PositiveTableWellFormed();
    NegativeTableWellFormed();
    var p := (r: Rule) => IsNegativeFor(r, None, None);
    FilterConcat(PositiveRuleTable, NegativeRuleTable, p);
    FilterNone(PositiveRuleTable, p);
    FilterAll(NegativeRuleTable, p);
  }

  /** `getNegativeRules(s, c)` agrees with `getRelevantRules(s, c, "negative")`. */
  lemma NegativeRulesAreRelevantRules(s: Scenario, c: CustomerType)
    ensures GetNegativeRules(Some(s), Some(c)) == GetRelevantRules(s, c, Some(Negative))
  {
    FilterSame(RapportRules, r => IsNegativeFor(r, Some(s), Some(c)), r => IsRelevant(r, s, c, Some(Negative)));
  }

  /** `getPositiveRules(s)` agrees with `getRelevantRules(s, c, "positive")`
      for every customer type `c`. */
  lemma PositiveRulesAreRelevantRules(s: Scenario, c: CustomerType)
    ensures GetPositiveRules(Some(s)) == GetRelevantRules(s, c, Some(Positive))
  {
    FilterSame(RapportRules, r => IsPositiveFor(r, Some(s)), r => IsRelevant(r, s, c, Some(Positive)));
  }

  /** Over a sequence of positive rules followed by negative rules, the
      relevant rules are the positive ones followed by the negative ones. */
  lemma {:induction false} RelevantSplits(pos: seq<Rule>, neg: seq<Rule>, s: Scenario, c: CustomerType)
    requires forall i :: 0 <= i < |pos| ==> pos[i].ruleType == Positive
    requires forall i :: 0 <= i < |neg| ==> neg[i].ruleType == Negative
    ensures Filter(pos + neg, r => IsRelevant(r, s, c, None)) ==
            Filter(pos + neg, r => IsPositiveFor(r, Some(s))) +
            Filter(pos + neg, r => IsNegativeFor(r, Some(s), Some(c)))
  {
    var rel := (r: Rule) => IsRelevant(r, s, c, None);
    var isPos := (r: Rule) => IsPositiveFor(r, Some(s));
    var isNeg := (r: Rule) => IsNegativeFor(r, Some(s), Some(c));
    assert Filter(pos + neg, rel) == Filter(pos, isPos) + Filter(neg, isNeg) by {
      FilterConcat(pos, neg, rel);
      FilterExt(pos, rel, isPos);
      FilterExt(neg, rel, isNeg);
    }
    assert Filter(pos + neg, isPos) == Filter(pos, isPos) by {
      FilterConcat(pos, neg, isPos);
      FilterNone(neg, isPos);
    }
    assert Filter(pos + neg, isNeg) == Filter(neg, isNeg) by {
      FilterConcat(pos, neg, isNeg);
      FilterNone(pos, isNeg);
    }
  }

  /** Because the table lists the positive rules first, the unrestricted
      `getRelevantRules(s, c)` is the positive rules for `s` followed by the
      negative rules for `s` and `c`. */
  lemma RelevantRulesArePositiveThenNegative(s: Scenario, c: CustomerType)
    ensures GetRelevantRules(s, c) == GetPositiveRules(Some(s)) + GetNegativeRules(Some(s), Some(c))
  {
    PositiveTableWellFormed();
    NegativeTableWellFormed();
    RelevantSplits(PositiveRuleTable, NegativeRuleTable, s, c);
  }

  /** Every negative rule selected for a customer turn is well formed and
      lowers the rapport. */
  lemma NegativeRulesLoseRapport(s: Option<Scenario>, c: Option<CustomerType>)
    ensures forall k :: 0 <= k < |GetNegativeRules(s, c)| ==>
              WellFormedRule(GetNegativeRules(s, c)[k]) &&
              GetNegativeRules(s, c)[k].WeightedImpactTenths() < 0
  {
    RuleTableWellFormed();
    FilterKeeps(RapportRules, r => IsNegativeFor(r, s, c), WellFormedRule);
  }

  /** Every positive rule selected for a trainee turn is well formed and
      raises the rapport. */
  lemma PositiveRulesGainRapport(s: Option<Scenario>)
    ensures forall k :: 0 <= k < |GetPositiveRules(s)| ==>
              WellFormedRule(GetPositiveRules(s)[k]) &&
              GetPositiveRules(s)[k].WeightedImpactTenths() > 0
  {
    RuleTableWellFormed();
    FilterKeeps(RapportRules, r => IsPositiveFor(r, s), WellFormedRule);
  }

  /** The empathy rule is offered to trainees in product-marketing sessions. */
  lemma PositiveEmpathyForMarketing()
    ensures PositiveEmpathy in GetPositiveRules(Some(ProductMarketing))
  {
    GetPositiveRulesSelects(Some(ProductMarketing));
    assert RapportRules[0] == PositiveEmpathy;
  }

}
