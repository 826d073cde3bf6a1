/** The literal texts the bot matches against and the labels it produces,
    exactly as the source spells them (zero-width non-joiners and variation
    selectors written as escapes). */
module Lexicon {
  import opened Text

  /** The price text of a negotiable listing, and the value `parsePriceNew` falls back to. */
  const Negotiable: string := "توافقی"  // bot/utils/index.js:9
  /** The value of a condition or specification nobody stated. */
  const Unknown: string := "نامشخص"  // bot/utils/index.js:92
  /** `business_type` of a private seller. */
  const Personal: string := "personal"  // bot/utils/index.js:99
  const ConsumerTag: string := "👤 مصرف\U{200C}کننده"  // bot/utils/index.js:99
  const DealerTag: string := "🏢 نمایشگاه/دلال"  // bot/utils/index.js:100
  /** Name of the detail section that carries the score and info rows. */
  const ListData: string := "LIST_DATA"  // bot/utils/index.js:110
  const GoodChassisWord0: string := "سالم"  // bot/utils/index.js:125
  const GoodChassisWord1: string := "پلمپ"  // bot/utils/index.js:125
  const GeneralChassisTitle: string := "وضعیت شاسی\U{200C}ها"  // bot/utils/index.js:131
  const FrontChassisTitle: string := "شاسی جلو"  // bot/utils/index.js:134
  const RearChassisTitle: string := "شاسی عقب"  // bot/utils/index.js:137
  const BodyTitle: string := "بدنه"  // bot/utils/index.js:143
  const CleanBodyWord0: string := "سالم"  // bot/utils/index.js:148
  const CleanBodyWord1: string := "بی\U{200C}رنگ"  // bot/utils/index.js:149
  const CleanBodyWord2: string := "بدون رنگ"  // bot/utils/index.js:150
  const CleanBodyTag: string := "✨ بدنه سالم/بی\U{200C}رنگ"  // bot/utils/index.js:152
  const DamagedBodyWord0: string := "تمام رنگ"  // bot/utils/index.js:154
  const DamagedBodyWord1: string := "تصادفی"  // bot/utils/index.js:155
  const DamagedBodyWord2: string := "چپی"  // bot/utils/index.js:156
  const DamagedBodyPrefix: string := "🚨 بدنه: "  // bot/utils/index.js:159
  const OtherBodyPrefix: string := "🖍\U{FE0F} بدنه: "  // bot/utils/index.js:161
  const EngineTitle: string := "موتور"  // bot/utils/index.js:166
  const HealthyEngineWord: string := "سالم"  // bot/utils/index.js:168
  const HealthyEngineTag: string := "⚙\U{FE0F} موتور سالم"  // bot/utils/index.js:169
  const EngineWarningPrefix: string := "⚠\U{FE0F} موتور: "  // bot/utils/index.js:171
  const SealedChassisTag: string := "✅ شاسی پلمپ"  // bot/utils/index.js:180
  const ChassisWarningPrefix: string := "⚠\U{FE0F} شاسی: "  // bot/utils/index.js:181
  const FrontPartPrefix: string := "جلو: "  // bot/utils/index.js:186
  const SealedFrontTag: string := "✅ شاسی جلو پلمپ"  // bot/utils/index.js:187
  const FrontWarningPrefix: string := "⚠\U{FE0F} جلو: "  // bot/utils/index.js:188
  const RearPartPrefix: string := "عقب: "  // bot/utils/index.js:192
  const SealedRearTag: string := "✅ شاسی عقب پلمپ"  // bot/utils/index.js:193
  const RearWarningPrefix: string := "⚠\U{FE0F} عقب: "  // bot/utils/index.js:194
  const PartSeparator: string := " | "  // bot/utils/index.js:197
  const GuessedDamagedChassisTag: string := "🚨 شاسی آسیب\U{200C}دیده (حدس از متن)"  // bot/utils/index.js:212
  const GuessedDamagedChassis: string := "آسیب\U{200C}دیده (حدس از متن)"  // bot/utils/index.js:213
  const GuessedSealedChassis: string := "پلمپ (حدس از متن)"  // bot/utils/index.js:218
  const GuessedPaintedBodyTag: string := "🎨 دور/تمام رنگ یا تصادفی (حدس از متن)"  // bot/utils/index.js:226
  const GuessedPaintedBody: string := "رنگ\U{200C}دار/تصادفی (حدس از متن)"  // bot/utils/index.js:227
  const GuessedCleanBodyTag: string := "✨ بدون رنگ"  // bot/utils/index.js:229
  const GuessedCleanBody: string := "بی\U{200C}رنگ (حدس از متن)"  // bot/utils/index.js:230
  const SuspiciousPriceTag: string := "⚠\U{FE0F} مشکوک به قیمت فیک / پیش\U{200C}پرداخت"  // bot/utils/index.js:249
  const FarBelowTag: string := "⛔ بسیار زیر قیمت عرف (احتمالاً مشکل\U{200C}دار یا حواله)"  // bot/utils/index.js:275
  const HotDealPrefix: string := "🔥 شکار روز ("  // bot/utils/index.js:279
  const HotDealSuffix: string := "% زیر فی بازار)"  // bot/utils/index.js:279
  const FairPriceTag: string := "✅ خوش\U{200C}قیمت"  // bot/utils/index.js:283
  const YearTitle: string := "مدل (سال تولید)"  // bot/utils/index.js:310
  const MileageTitle: string := "کارکرد"  // bot/utils/index.js:311
  const BasePriceTitle: string := "قیمت پایه"  // bot/utils/index.js:326
  /** `hip_action.method` when the contact endpoint asks for a CAPTCHA. */
  const Captcha: string := "CAPTCHA"  // bot/index.js:895
  const UnexpandableRow: string := "UNEXPANDABLE_ROW"  // bot/index.js:910
  const CallPhone: string := "CALL_PHONE"  // bot/index.js:911
  const DefaultContactTitle: string := "شماره"  // bot/index.js:913
  const PostRow: string := "POST_ROW"  // bot/index.js:971
  const NoDescription: string := "توضیحاتی درج نشده است."  // bot/index.js:1074
  const MapUrlPrefix: string := "https://maps.google.com/?q="  // bot/index.js:1091
  const UnknownBusinessType: string := "unknown"  // bot/index.js:1105
  const PlaceholderPriceText: string := "⚠\U{FE0F} درج شده به عنوان پیش\U{200C}پرداخت / غیرواقعی"  // bot/index.js:1150
  const LockedPriceTag: string := "🔒 شکار ویژه روز (مخصوص کاربران VIP)"  // bot/index.js:1186
  const UpsellTag: string := "برای مشاهده جزئیات این آگهی رانتی، اشتراک خود را طلایی کنید."  // bot/index.js:1188
  /** The token a locked alert carries instead of the listing token. */
  const UpgradeRequired: string := "UPGRADE_REQUIRED"  // bot/index.js:1190
  const PlaceholderImage: string := "https://yoursite.com/blurred-car-image.jpg"  // bot/index.js:1191
  const DealerWord: string := "دلال"  // bot/index.js:1198
  const ConsumerWord: string := "مصرف\U{200C}کننده"  // bot/index.js:1198
  const TruncationMarker: string := "... (ادامه در دیوار)"  // bot/index.js:1285
  const DivarLinkPrefix: string := "https://divar.ir/v/"  // bot/index.js:1293
  const UpgradeLabel: string := "💎 ارتقا به حساب طلایی برای مشاهده"  // bot/index.js:1301
  const UpgradeAction: string := "buy_sub_gold"  // bot/index.js:1302
  const OpenLinkLabel: string := "🔗 مشاهده در دیوار"  // bot/index.js:1308
  const GetPhoneLabel: string := "📞 دریافت شماره تماس"  // bot/index.js:1313
  const GetPhoneActionPrefix: string := "get_phone_"  // bot/index.js:1313
  const LockedPhoneLabel: string := "🔒 دریافت شماره (مخصوص طلایی)"  // bot/index.js:1316
  const LockedPhoneAction: string := "upgrade_to_gold_alert"  // bot/index.js:1317
  const MapSection: string := "MAP"  // bot/index.js:1079
  const MapRowType: string := "MAP_ROW"  // bot/index.js:1084
  const JustNow: string := "لحظاتی پیش"  // bot/index.js:1066
  const MapLabel: string := "🗺 مسیریابی روی نقشه"  // bot/index.js:1325

  /** Alternatives of the regular expression that guesses a damaged chassis from the description. */
  const DamagedChassisText: seq<Pattern> := [  // bot/utils/index.js:209
    Then("شاسی", "خوردگی"),
    Then("شاسی", "ضربه"),
    Then("شاسی", "جوش"),
    Word("چپی"),
    Word("تصادفی"),
    Word("اتاق تعویض"),
    Then("شاسی", "ترک"),
    Word("دو تیکه")
  ]

  /** Alternatives that guess a sealed chassis from the description. */
  const SealedChassisText: seq<Pattern> := [  // bot/utils/index.js:215
    Then("شاسی", "پلمپ"),
    Then("شاسی", "سالم"),
    Word("بدون ضربه"),
    Word("شاسی ها پلمپ")
  ]

  /** Alternatives that guess a repainted or crashed body from the description. */
  const PaintedBodyText: seq<Pattern> := [  // bot/utils/index.js:224
    Word("تمام رنگ"),
    Word("دور رنگ"),
    Word("دوررنگ"),
    Then("رنگ", "کامل"),
    Word("چپی"),
    Word("تصادفی")
  ]

  /** Alternatives that guess an unpainted body from the description. */
  const CleanBodyText: seq<Pattern> := [  // bot/utils/index.js:228
    Word("بی رنگ"),
    Word("بدون رنگ"),
    Word("فابریک")
  ]

}
