/**
 * Every message the validators report, as a value: each constructor is one wording, its
 * parameters are the parts the wording interpolates, and `Sentence` spells the Russian
 * sentence out. The validators decide WHICH message applies; the sentence itself is only
 * needed when a record is made (see `Errors.Record`).
 */
module Messages {
  import opened Text

  /** The subject a shared wording starts with ("В абзаце отступ слева не допускается."). */
  datatype Who =
    | ResourceWho | HeadingWho | StructureWho | AppendixWho | ListingWho | CodeWho
    | ParagraphWho | TableCaptionWho | ImageCaptionWho | ImageWho

  function WhoText(w: Who): string {
    match w
    case ResourceWho => "В списке ресурсов"
    case HeadingWho => "У заголовка"
    case StructureWho => "В структурном элементе"
    case AppendixWho => "В приложении"
    case ListingWho => "У подписи листинга"
    case CodeWho => "В коде"
    case ParagraphWho => "В абзаце"
    case TableCaptionWho => "Подпись таблицы"
    case ImageCaptionWho => "У подписи изображения"
    case ImageWho => "У изображения"
  }

  datatype Msg =
    // paragraphs in general
    | DoubleSpaces
    | SideIndent(who: Who, left: bool, right: bool)
    // list extraction and numbering prefixes
    | TextualList
    | BadBullet
    | ResourceBullet
    | NonDecimalFormat
    | PrefixTooDeep(prefix: string)
    | FirstLevelPrefix(prefix: string)
    | NestedPrefix(prefix: string, level: nat)
    // the list of information resources
    | ResourceNumberFormat
    | ResourceSequence(expected: nat)
    | ResourceNoFinalDot
    | ResourceFontSize
    | ResourceEmphasis
    | ResourceFirstIndent
    | ResourceSpacing
    | ResourceAlignment
    | ResourceLineSpacing
    // lists
    | ListPotentialHeading
    | ListFont
    | ListFontSize
    | ListEmphasis
    | FirstItemEnd
    | LastItemEnd
    | MiddleItemEnd
    | ListFirstIndent
    | ListRightIndent
    | ListSpacing
    | ListAlignment
    | ListLineSpacing
    | ListOrder
    // headings
    | HeadingTooDeep(number: string)
    | HeadingGap
    | HeadingCapital
    | HeadingOneSentencePunct
    | HeadingTwoSentencePunct
    | HeadingMismatch
    | HeadingParent
    | HeadingSequence(expectedNumbers: seq<nat>)
    | HeadingStartAtOne(expectedNumbers: seq<nat>)
    | HeadingNumberDot
    | HeadingBlankBefore
    | HeadingBlankAfter
    | HeadingBold
    | HeadingSize(size: nat)
    | HeadingItalic
    | HeadingUnderline
    | HeadingFont
    | HeadingFirstIndent
    | HeadingSpacing
    | HeadingLineSpacing(twoLines: bool)
    | HeadingAlignment
    // structural elements (who is StructureWho or AppendixWho), appendices
    | TitleFont(who: Who)
    | TitleSize(who: Who)
    | TitleBold(who: Who)
    | TitleAlignment(who: Who)
    | TitleFirstIndent(who: Who)
    | TitleSpacing(who: Who)
    | AppendixLetterBad(letter: string)
    | AppendixLetterRepeat(letter: string)
    | MissingTitle(title: string)
    // listings and code
    | ListingShape
    | ListingCapital
    | ListingFont
    | ListingSize
    | ListingEmphasis
    | ListingAlignment
    | ListingFirstIndent
    | ListingSpacing
    | CodeSize
    | CodeEmphasis
    | CodeAlignment
    | CodeFirstIndent
    | CodeSpacing
    // body text
    | ParaFont
    | ParaSize
    | ParaBold
    | ParaItalic
    | ParaUnderline
    | ParaLineSpacing
    | ParaFirstIndent
    | ParaSpacing
    | ParaAlignment
    // table captions and tables
    | TableCaptionFirstIndent
    | TableCaptionSpacing
    | TableCaptionAlignment
    | TableCaptionShape(inAppendix: bool)
    | TableAppendixPrefix(letter: string)
    | TableAppendixSequence(letter: string, expected: nat, got: string)
    | TableZeroSecond(number: string)
    | TableUnknownHeading(heading: nat)
    | TableSectionSequence(heading: nat, expectedNumber: string, got: string)
    | TableFormatChange(wasSequential: bool)
    | TableMainSequence(expected: nat, got: string)
    | TableCaptionFont
    | TableCaptionSize
    | TableCaptionBold
    | TableCaptionItalic
    | TableCaptionLineSpacing
    | TableCaptionPunct
    | ContinuationOrphan(ref: string)
    | ContinuationAppendix(letter: string, head: string)
    | EndingOrphan(ref: string)
    | EndingAppendix(letter: string, head: string)
    | TableNotCentered
    | TableNoCaption
    | TableBlankAfter
    | TableOpenContinuation(number: string)
    // image captions and images
    | ImageCaptionFirstIndent
    | ImageCaptionAlignment
    | ImageCaptionShape(inAppendix: bool)
    | ImageAppendixPrefix(letter: string)
    | ImageAppendixSequence(letter: string, expected: nat, got: string)
    | ImageZeroSecond(number: string)
    | ImageSectionSequence(heading: nat, expectedNumber: string, got: string)
    | ImageFormatChange(wasSequential: bool)
    | ImageMainSequence(expected: nat, got: string)
    | ImageCaptionFont
    | ImageCaptionSize
    | ImageCaptionBold
    | ImageCaptionItalic
    | ImageCaptionLineSpacing
    | ImageCaptionPunct
    | ImageCaptionBlankAfter
    | ImageNotCentered
    | ImageFirstIndent
    | ImageBlankBefore
    | ImageNoCaption

  /** `' и '.join(indent_errors)` for the left and right indent words. */
  function SidesText(left: bool, right: bool): string {
    if left && right then "слева и справа" else if left then "слева" else "справа"
  }

  /** The letters an appendix may use, as Python prints the list. */
  const LettersRepr: string :=
    "['А', 'Б', 'В', 'Г', 'Д', 'Е', 'Ж', 'И', 'К', 'Л', 'М', 'Н', 'П', 'Р', 'С', 'Т', 'У', 'Ф', 'Х', 'Ц', 'Ш', 'Щ', 'Э', 'Ю', 'Я']"

  /** The sentence a message is reported with. */
  function Sentence(m: Msg): string {
    match m
    case DoubleSpaces => "В тексте обнаружены двойные пробелы. Допускается только один пробел между словами."
    case SideIndent(w, l, r) => WhoText(w) + " отступ " + SidesText(l, r) + " не допускается."
    case TextualList => "Список использует текстовый набор. Ожидается стандартный стиль списков Word."
    case BadBullet => "Недопустимый маркер в маркированном списке. Ожидается стандартный стиль списков Word: '‒'."
    case ResourceBullet => "В списке ресурсов недопустим маркированный список.Ожидается формат 1 2 3 и т.д."
    case NonDecimalFormat => "В списке используется недопустимый формат. Разрешены только 1 2 3 и т.д."
    case PrefixTooDeep(p) =>
      "Нумерованный префикс '" + p + "' имеет недопустимую вложенность. Максимально разрешено 3 уровня."
    case FirstLevelPrefix(p) => "Нумерованный префикс '" + p + "' в списке первого уровня должен быть в формате 'X.'."
    case NestedPrefix(p, n) =>
      "Нумерованный префикс '" + p + "' в списке " + NatToString(n) + "-го уровня должен быть в формате '"
      + (if n == 2 then "X.Y" else "X.Y.Z") + "' без завершающей точки."
    case ResourceNumberFormat => "В списке ресурсов ожидается нумерация в формате '1', '2', '3' и т.д."
    case ResourceSequence(n) =>
      "Нарушена последовательность нумерации в списке ресурсов. Ожидалось '" + NatToString(n) + ".'."
    case ResourceNoFinalDot => "Элемент списка ресурсов должен заканчиваться точкой."
    case ResourceFontSize => "В списке ресурсов размер шрифта должен быть 14 pt."
    case ResourceEmphasis => "В списке ресурсов недопустимое форматирование текста (жирный, курсив, подчеркивание)."
    case ResourceFirstIndent => "В списке ресурсов отступ первой строки должен быть 1.25 см."
    case ResourceSpacing => "В списке ресурсов интервал перед или после абзаца не допускается."
    case ResourceAlignment => "В списке ресурсов выравнивание должно быть по ширине."
    case ResourceLineSpacing => "В списке ресурсов межстрочный интервал должен быть 1.5."
    case ListPotentialHeading =>
      "Потенциальный заголовок. Оформите его как текстовым списком без использования стилей списков."
    case ListFont => "В списке неверный шрифт. Ожидается Times New Roman."
    case ListFontSize => "В списке неверный размер шрифта. Ожидается 14 pt."
    case ListEmphasis => "В списке недопустимое форматирование текста (жирный, курсив, подчеркивание)."
    case FirstItemEnd => "Первый элемент списка должен заканчиваться запятой или точкой с запятой."
    case LastItemEnd => "Последний элемент списка должен заканчиваться точкой."
    case MiddleItemEnd => "Элемент списка должен заканчиваться на тот же символ, что и первый элемент."
    case ListFirstIndent => "В списке неверный отступ первой строки. Ожидается 1.25 см."
    case ListRightIndent => "В списке отступ справа не допускается."
    case ListSpacing => "В списке интервал перед или после абзаца не допускается."
    case ListAlignment => "В списке выравнивание должно быть по ширине."
    case ListLineSpacing => "В списке неверный межстрочный интервал. Ожидается 1.5."
    case ListOrder => "Нарушена последовательность нумерации в списке."
    case HeadingTooDeep(n) => "Уровень заголовка (" + n + ") превышает допустимый (максимум 3 уровня)."
    case HeadingGap => "Заголовок должен иметь ровно один пробел между номером и текстом."
    case HeadingCapital => "Заголовок должен начинаться с заглавной буквы."
    case HeadingOneSentencePunct => "Заголовок из одного предложения не должен заканчиваться знаком препинания."
    case HeadingTwoSentencePunct => "Заголовок из двух предложений не должен заканчиваться знаком препинания."
    case HeadingMismatch => "Потенциальный заголовок не соответствует форматированию"
    case HeadingParent => "Нарушена последовательность родительских номеров заголовка. Ожидался родительский номер."
    case HeadingSequence(e) => "Нарушена последовательность нумерации заголовка. Ожидалось '" + JoinDots(e) + "'."
    case HeadingStartAtOne(e) => "Подзаголовок должен начинаться с '1'. Ожидалось '" + JoinDots(e) + "'."
    case HeadingNumberDot => "У заголовка не должно быть точки после номера."
    case HeadingBlankBefore =>
      "Перед заголовком должно быть две пустые строки, если он не находится на первой строке страницы."
    case HeadingBlankAfter => "После заголовка должно быть две пустые строки."
    case HeadingBold => "Заголовок должен быть полужирным."
    case HeadingSize(s) => "Заголовок должен быть размером шрифта " + NatToString(s) + " pt."
    case HeadingItalic => "Заголовок не должен быть курсивом."
    case HeadingUnderline => "Заголовок не должен быть подчеркнутым."
    case HeadingFont => "Заголовок должен быть шрифтом Times New Roman."
    case HeadingFirstIndent => "Заголовок должен иметь отступ первой строки 1.25 см."
    case HeadingSpacing => "У заголовка интервал перед или после абзаца не допускается."
    case HeadingLineSpacing(two) =>
      "Межстрочный интервал заголовка должен быть " + (if two then "1.0" else "1.5") + " для "
      + (if two then "двух строк" else "одной строки") + "."
    case HeadingAlignment => "Заголовок должен быть выровнен по ширине."
    case TitleFont(w) => WhoText(w) + " шрифт должен быть Times New Roman."
    case TitleSize(w) => WhoText(w) + " размер шрифта должен быть 16 pt."
    case TitleBold(w) => WhoText(w) + " текст должен быть полужирным."
    case TitleAlignment(w) => WhoText(w) + " выравнивание должно быть по центру."
    case TitleFirstIndent(w) => WhoText(w) + " отступ первой строки не допускается."
    case TitleSpacing(w) => WhoText(w) + " интервал перед или после абзаца не допускается."
    case AppendixLetterBad(l) =>
      "Некорректная буква приложения: '" + l + "'. Ожидается одна буква из " + LettersRepr + "."
    case AppendixLetterRepeat(l) => "Повторяющаяся буква приложения: '" + l + "'."
    case MissingTitle(t) => "Отсутствует правильно оформленный обязательный структурный элемент: " + t + "."
    case ListingShape =>
      "Некорректная подпись листинга. Ожидается формат 'Листинг X – Название' или 'Листинг Y.X – Название'."
    case ListingCapital => "Название листинга должно начинаться с заглавной буквы."
    case ListingFont => "У подписи листинга шрифт должен быть Times New Roman."
    case ListingSize => "У подписи листинга размер шрифта должен быть 14 pt."
    case ListingEmphasis => "У подписи листинга недопустимы жирный или курсив."
    case ListingAlignment => "У подписи листинга выравнивание должно быть по центру."
    case ListingFirstIndent => "У подписи листинга отступ первой строки не допускается."
    case ListingSpacing => "В подписи листинга интервал перед или после абзаца не допускается."
    case CodeSize => "В коде размер шрифта должен быть 12 pt."
    case CodeEmphasis => "В коде недопустимы жирный, курсив или подчеркивание."
    case CodeAlignment => "В коде выравнивание должно быть по левому краю."
    case CodeFirstIndent => "В коде отступ первой строки не допускается."
    case CodeSpacing => "В коде интервал перед или после абзаца не допускается."
    case ParaFont => "В абзаце шрифт должен быть Times New Roman."
    case ParaSize => "В абзаце размер шрифта должен быть 14 pt."
    case ParaBold => "В абзаце недопустим жирный шрифт."
    case ParaItalic => "В абзаце недопустим курсив."
    case ParaUnderline => "В абзаце недопустимо подчёркивание."
    case ParaLineSpacing => "В абзаце межстрочный интервал должен быть 1.5."
    case ParaFirstIndent => "В абзаце отступ первой строки должен быть 1.25 см."
    case ParaSpacing => "В абзаце интервал перед или после абзаца не допускается."
    case ParaAlignment => "В абзаце текст должен быть выровнен по ширине."
    case TableCaptionFirstIndent => "Подпись таблицы не должна иметь отступ первой строки."
    case TableCaptionSpacing => "В подписи таблицы интервал перед или после абзаца не допускается."
    case TableCaptionAlignment => "Подпись таблицы должна быть выровнена по левому краю."
    case TableCaptionShape(a) =>
      "Некорректная подпись таблицы. Ожидаемый формат: "
      + (if a then "Таблица Y.X – Название" else "Таблица X – Название или Таблица Y.X – Название")
      + ", где Y - буква приложения"
    case TableAppendixPrefix(l) => "В приложении '" + l + "' подпись таблицы должна начинаться с '" + l + ".'"
    case TableAppendixSequence(l, n, g) =>
      "Нарушена нумерация таблиц в приложении '" + l + "'. Ожидалось 'Таблица " + l + "." + NatToString(n)
      + "', получено 'Таблица " + g + "'"
    case TableZeroSecond(n) =>
      "Подпись таблицы использует некорректный номер '" + n
      + "'. В формате Y.X вторая часть номера не должна быть 0, ожидается Y.1, Y.2, и т.д."
    case TableUnknownHeading(h) => "Подпись таблицы в формате Y.X ссылается на неверный заголовок " + NatToString(h)
    case TableSectionSequence(h, e, g) =>
      "Нарушена нумерация таблиц в разделе " + NatToString(h) + ". Ожидалось 'Таблица " + e
      + "', получено 'Таблица " + g + "'"
    case TableFormatChange(wasSeq) =>
      "Подпись таблицы использует отличный формат от предыдущей подписи таблицы. Ожидается: "
      + (if wasSeq then "Таблица X – Название" else "Таблица Y.X – Название")
    case TableMainSequence(n, g) =>
      "Нарушена сквозная нумерация таблиц в основном документе. Ожидалось 'Таблица " + NatToString(n)
      + "', получено 'Таблица " + g + "'"
    case TableCaptionFont => "У подписи таблицы шрифт должен быть Times New Roman"
    case TableCaptionSize => "У подписи таблицы размер шрифта должен быть 14 pt"
    case TableCaptionBold => "Подпись таблицы не должна быть полужирной"
    case TableCaptionItalic => "Подпись таблицы не должна быть курсивом"
    case TableCaptionLineSpacing => "У подписи таблицы межстрочный интервал должен быть 1.5"
    case TableCaptionPunct => "Подпись таблицы не должна оканчиваться знаком препинания"
    case ContinuationOrphan(r) => "Продолжение таблицы '" + r + "' без основной таблицы"
    case ContinuationAppendix(l, h) =>
      "В приложении '" + l + "' подпись продолжения таблицы '" + h + "' должна начинаться с '" + l + ".'"
    case EndingOrphan(r) => "Окончание таблицы '" + r + "' без основной таблицы"
    case EndingAppendix(l, h) =>
      "В приложении '" + l + "' подпись окончания таблицы '" + h + "' должна начинаться с '" + l + ".'"
    case TableNotCentered => "Таблица не выровнена по центру."
    case TableNoCaption =>
      "Перед таблицей отсутствует подпись в формате 'Таблица X – Название', "
      + "'Продолжение таблицы X' или 'Окончание таблицы X'."
    case TableBlankAfter => "После таблицы не должно быть пустой строки."
    case TableOpenContinuation(n) => "Для таблицы '" + n + "' есть продолжение, но нет окончания"
    case ImageCaptionFirstIndent => "Подпись изображения не должна иметь отступ первой строки."
    case ImageCaptionAlignment => "Подпись изображения должна быть выровнена по центру."
    case ImageCaptionShape(a) =>
      "Некорректная подпись изображения. Ожидаемый формат: "
      + (if a then "Рисунок Y.X – Название" else "Рисунок X – Название или Рисунок Y.X – Название")
    case ImageAppendixPrefix(l) => "В приложении '" + l + "' подпись изображения должна начинаться с '" + l + ".'"
    case ImageAppendixSequence(l, n, g) =>
      "Нарушена нумерация изображений в приложении '" + l + "'. Ожидалось 'Рисунок " + l + "." + NatToString(n)
      + "', получено 'Рисунок " + g + "'"
    case ImageZeroSecond(n) =>
      "Подпись изображения использует некорректный номер '" + n
      + "'. В формате Y.X вторая часть номера не должна начинаться с 0"
    case ImageSectionSequence(h, e, g) =>
      "Нарушена нумерация изображений в разделе " + NatToString(h) + ". Ожидалось 'Рисунок " + e
      + "', получено 'Рисунок " + g + "'"
    case ImageFormatChange(wasSeq) =>
      "Подпись изображения использует отличный формат от предыдущей подписи изображения. Ожидается: "
      + (if wasSeq then "Рисунок X – Название" else "Рисунок Y.X – Название")
    case ImageMainSequence(n, g) =>
      "Нарушена сквозная нумерация изображений в основном документе. Ожидалось 'Рисунок " + NatToString(n)
      + "', получено 'Рисунок " + g + "'"
    case ImageCaptionFont => "У подписи изображения шрифт должен быть Times New Roman"
    case ImageCaptionSize => "У подписи изображения размер шрифта должен быть 14 pt"
    case ImageCaptionBold => "Подпись изображения не должна быть полужирной"
    case ImageCaptionItalic => "Подпись изображения не должна быть курсивом"
    case ImageCaptionLineSpacing => "У подписи изображения межстрочный интервал должен быть 1.5"
    case ImageCaptionPunct => "Подпись изображения не должна оканчиваться знаком препинания"
    case ImageCaptionBlankAfter => "После подписи изображения не должно быть пустой строки"
    case ImageNotCentered => "Изображение не выровнено по центру."
    case ImageFirstIndent => "Изображение не должно иметь отступ первой строки."
    case ImageBlankBefore => "Перед изображением не должно быть пустой строки."
    case ImageNoCaption =>
      "После изображения отсутствует подпись в формате 'Рисунок X – Название' или 'Рисунок Y.X – Название', "
      + "где Y - номер заголовка, X - порядовый номер изображения."
  }
}
